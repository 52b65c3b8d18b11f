/** The sequential estimator: its parameters, its state machine, the
    search of the forward-filter epochs used by the smoother, the
    Cartesian-to-Keplerian conversion matrix layout and sigma editing of
    observations
    (plugins/ExtendedKalmanFilterPlugin/src/base/EKF/SeqEstimator.cpp). */
module SeqEstimatorModel {
  import opened Common
  import opened Matrices

  // ---------------------------------------------------------------------
  // Parameters

  /** The names of the estimator's own parameters, in id order (id =
      EstimatorParamCount + position). */
  const ParameterText: seq<string> := [
    "ProcessNoiseTimeStep", "ScaledResidualThreshold", "DelayRectifyTimeSpan",
    "MeasDeweightingSigmaThreshold", "MeasDeweightingCoefficient",
    "InputWarmStartFile", "WarmStartEpochFormat", "WarmStartEpoch", "OutputWarmStartFile"]

  const ProcessNoiseTimeStepId: nat := 0
  const ConstantMultiplierId: nat := 1
  const DelayRectifyTimeId: nat := 2
  const MeasDeweightThresholdId: nat := 3
  const MeasDeweightCoeffId: nat := 4

  /** A parameter id: one of the estimator's own (by position in
      ParameterText) or one the base estimator handles. */
  datatype ParamRef = Own(index: nat) | Inherited

  /** GetParameterID: "MaximumIterations" is refused; the estimator's own
      names give their position; anything else goes to the base class. */
  function GetParameterID(str: string): (r: Result<ParamRef>)
    ensures r.Err? <==> str == "MaximumIterations"
    ensures r.Ok? && r.value.Own? ==> r.value.index < |ParameterText| && ParameterText[r.value.index] == str
    ensures r.Ok? && r.value.Inherited? ==> str !in ParameterText
  {
    if str == "MaximumIterations" then
      Err("Syntax error: Sequential Estimator does not has parameter '" + str + "'.\n")
    else if str in ParameterText then Ok(Own(FirstIndex(ParameterText, str)))
    else Ok(Inherited)
  }

  /** GetParameterText for the estimator's own ids. */
  function GetParameterText(index: nat): string
    requires index < |ParameterText|
  {
    ParameterText[index]
  }

  /** Each own id's text maps back to that id. */
  lemma ParameterIdRoundTrip(index: nat)
    requires index < |ParameterText|
    ensures GetParameterID(GetParameterText(index)) == Ok(Own(index))
  {
    var s := ParameterText[index];
    assert s != "MaximumIterations";
    assert forall j :: 0 <= j < |ParameterText| && j != index ==> ParameterText[j] != ParameterText[index];
  }

  /** What a real-parameter set does: accept the value, refuse it with a
      message, or hand the id to the base estimator. */
  datatype RealSet = Accepted(value: real) | Refused(msg: string) | PassedToBase

  /** The value a real parameter of the estimator may take. */
  predicate ValidRealSetting(index: nat, value: real)
  {
    if index == ConstantMultiplierId then value > 0.0
    else if index in {ProcessNoiseTimeStepId, DelayRectifyTimeId, MeasDeweightThresholdId, MeasDeweightCoeffId} then value >= 0.0
    else false
  }

  // ---------------------------------------------------------------------
  // The solver states

  datatype SolverState =
    | Initializing | Nominal | Perturbing | Iterating | Calculating | CheckingRun
    | RunExternal | Finished | Propagating | Locating | Accumulating | Estimating
    | UndefinedState

  /** The answers of the collaborators an AdvanceState step consults: the
      state the unmodelled handlers (CompleteInitialization, FindTimeStep,
      Estimate, RunComplete) leave behind, the measurement manager's answers
      and the status of the active events. */
  datatype StepInputs = StepInputs(
    afterInitialization: SolverState,
    afterPropagation: SolverState,
    afterEstimation: SolverState,
    afterRunComplete: SolverState,
    afterCleanUpStep: SolverState,
    measurementsCalculated: bool,
    eventCount: nat,
    eventsLocated: seq<bool>,
    hasMatWriter: bool,
    matDataAdded: bool)

  predicate AllLocated(located: seq<bool>)
  {
    forall i :: 0 <= i < |located| ==> located[i]
  }

  /** The part of the estimator one AdvanceState step decides: the state
      and whether it is predicting. */
  datatype Step = Step(state: SolverState, predicting: bool)

  /** The state the handler of `state` leaves before StateCleanUp:
      CalculateData, ProcessEvent and CheckCompletion as modelled below,
      the other handlers as inputs; None for a state without a handler. */
  function HandlerState(state: SolverState, inputs: StepInputs): Option<SolverState>
  {
    match state
    case Initializing => Some(inputs.afterInitialization)
    case Propagating => Some(inputs.afterPropagation)
    case Calculating =>
      Some(if inputs.measurementsCalculated && inputs.eventCount > 0 then Locating else Estimating)
    case Locating => Some(if AllLocated(inputs.eventsLocated) then Estimating else Locating)
    case Estimating => Some(inputs.afterEstimation)
    case CheckingRun => Some(Finished)
    case Finished => Some(inputs.afterRunComplete)
    case _ => None
  }

  /** StateCleanUp on a value: in CHECKINGRUN with an anchor epoch or a
      prediction span, and not yet predicting, prediction starts and the
      state is FindTimeStep's choice; otherwise nothing changes. */
  function CleanedUp(s: Step, anchored: bool, predictSpan: real, afterCleanUpStep: SolverState): Step
  {
    if s.state == CheckingRun && (anchored || predictSpan != 0.0) && !s.predicting then
      Step(afterCleanUpStep, true)
    else s
  }

  const UnknownStateMessage := "Unknown state encountered in the sequential estimator."
  const MatDataMessage := "Error adding .mat data file"

  /** One AdvanceState step on a value: the handler, then the clean up; a
      state without a handler and a failure to add the .mat data after
      CheckCompletion are errors. */
  function Advanced(s: Step, inputs: StepInputs, anchored: bool, predictSpan: real): Result<Step>
  {
    match HandlerState(s.state, inputs)
    case None => Err(UnknownStateMessage)
    case Some(handled) =>
      if s.state == CheckingRun && inputs.hasMatWriter && !inputs.matDataAdded then Err(MatDataMessage)
      else Ok(CleanedUp(Step(handled, s.predicting), anchored, predictSpan, inputs.afterCleanUpStep))
  }

  /** The steps of a run of AdvanceState calls, one per input, up to the
      first error. */
  function Run(s: Step, steps: seq<StepInputs>, anchored: bool, predictSpan: real): Result<Step>
    decreases |steps|
  {
    if steps == [] then Ok(s)
    else
      match Advanced(s, steps[0], anchored, predictSpan)
      case Err(msg) => Err(msg)
      case Ok(next) => Run(next, steps[1..], anchored, predictSpan)
  }

  /** One step never stops a prediction, and it starts one only when a
      handler leaves CHECKINGRUN with an anchor epoch or a prediction span;
      CheckCompletion itself leaves FINISHED, so the step out of CHECKINGRUN
      always answers FINISHED and never starts predicting. */
  lemma AdvancedPrediction(s: Step, inputs: StepInputs, anchored: bool, predictSpan: real)
    ensures var r := Advanced(s, inputs, anchored, predictSpan);
            r.Ok? ==>
              && (s.predicting ==> r.value.predicting)
              && (!s.predicting ==>
                    (r.value.predicting <==> HandlerState(s.state, inputs) == Some(CheckingRun) && (anchored || predictSpan != 0.0)))
              && (s.state == CheckingRun ==> r.value == Step(Finished, s.predicting))
  {
  }

  /** Once predicting, every later step of the run is still predicting. */
  lemma {:induction false} PredictionPersists(s: Step, steps: seq<StepInputs>, anchored: bool, predictSpan: real)
    requires s.predicting
    ensures Run(s, steps, anchored, predictSpan).Ok? ==> Run(s, steps, anchored, predictSpan).value.predicting
    decreases |steps|
  {
    if steps != [] {
      AdvancedPrediction(s, steps[0], anchored, predictSpan);
      var r := Advanced(s, steps[0], anchored, predictSpan);
      if r.Ok? {
        PredictionPersists(r.value, steps[1..], anchored, predictSpan);
      }
    }
  }

  /** A run without an anchor epoch or a prediction span never starts
      predicting. */
  lemma {:induction false} NoPredictionWithoutSpan(s: Step, steps: seq<StepInputs>, predictSpan: real)
    requires !s.predicting && predictSpan == 0.0
    ensures Run(s, steps, false, predictSpan).Ok? ==> !Run(s, steps, false, predictSpan).value.predicting
    decreases |steps|
  {
    if steps != [] {
      var r := Advanced(s, steps[0], false, predictSpan);
      if r.Ok? {
        NoPredictionWithoutSpan(r.value, steps[1..], predictSpan);
      }
    }
  }

  class SeqEstimator {
    var currentState: SolverState
    var iterationsTaken: nat
    var locatingEvent: bool
    var isSmoothing: bool
    /** The direction last given to the measurement manager. */
    var measForward: bool
    var overwriteEditFlags: bool
    var hasAnchorEpoch: bool
    var predictTimeSpan: real
    var isPredicting: bool
    var processNoiseStep: real
    var constMult: real
    var delayRectifySpan: real
    var deweightThreshold: real
    var deweightCoeff: real

    /** A new estimator: no noise step or delayed rectification, a
        deweighting threshold of 1, a 3-sigma editing multiplier, and edit
        flags overwritten. */
    constructor ()
      ensures currentState == Initializing && iterationsTaken == 0
      ensures processNoiseStep == 0.0 && delayRectifySpan == 0.0
      ensures deweightThreshold == 1.0 && deweightCoeff == 0.0 && constMult == 3.0
      ensures !hasAnchorEpoch && overwriteEditFlags && !isPredicting
    {
      currentState := Initializing;
      iterationsTaken := 0;
      locatingEvent := false;
      isSmoothing := false;
      measForward := true;
      overwriteEditFlags := true;
      hasAnchorEpoch := false;
      predictTimeSpan := 0.0;
      isPredicting := false;
      processNoiseStep := 0.0;
      constMult := 3.0;
      delayRectifySpan := 0.0;
      deweightThreshold := 1.0;
      deweightCoeff := 0.0;
    }

    function Settings(): seq<real>
      reads this
    {
      [processNoiseStep, constMult, delayRectifySpan, deweightThreshold, deweightCoeff]
    }

    /** SetRealParameter: the noise step, the delayed-rectification span
        and both deweighting values must be non-negative, the editing
        multiplier positive; an accepted value is stored, a refused one
        changes nothing; other ids go to the base estimator. */
    method SetRealParameter(id: ParamRef, value: real) returns (res: RealSet)
      modifies this
      ensures id.Own? && id.index < 5 ==>
                (res.Accepted? <==> ValidRealSetting(id.index, value)) &&
                (res.Accepted? ==> res.value == value &&
                                   Settings() == old(Settings())[id.index := value]) &&
                (!res.Accepted? ==> res.Refused? && Settings() == old(Settings()))
      ensures (id.Own? && id.index >= 5) || id.Inherited? ==> res.PassedToBase? && Settings() == old(Settings())
      ensures currentState == old(currentState) && iterationsTaken == old(iterationsTaken)
    {
      if id.Own? && id.index == ProcessNoiseTimeStepId {
        if value >= 0.0 {
          processNoiseStep := value;
        } else {
          return Refused("Error: ProcessNoiseTimeStep cannot be negative\n");
        }
        return Accepted(processNoiseStep);
      }
      if id.Own? && id.index == ConstantMultiplierId {
        if value > 0.0 {
          constMult := value;
        } else {
          return Refused("Error: ScaledResidualThreshold parameter is not a positive number\n");
        }
        return Accepted(constMult);
      }
      if id.Own? && id.index == DelayRectifyTimeId {
        if value >= 0.0 {
          delayRectifySpan := value;
        } else {
          return Refused("Error: DelayRectifyTimeSpan cannot be negative\n");
        }
        return Accepted(delayRectifySpan);
      }
      if id.Own? && id.index == MeasDeweightThresholdId {
        if value >= 0.0 {
          deweightThreshold := value;
        } else {
          return Refused("Error: MeasDeweightingSigmaThreshold cannot be negative\n");
        }
        return Accepted(deweightThreshold);
      }
      if id.Own? && id.index == MeasDeweightCoeffId {
        if value >= 0.0 {
          deweightCoeff := value;
        } else {
          return Refused("Error: MeasDeweightingCoefficient cannot be negative\n");
        }
        return Accepted(deweightCoeff);
      }
      return PassedToBase;
    }

    /** CalculateData: without calculated measurements, or with no events,
        the estimator goes on to estimate; with events it locates them
        first. */
    method CalculateData(measurementsCalculated: bool, eventCount: nat)
      modifies this
      ensures currentState == (if measurementsCalculated && eventCount > 0 then Locating else Estimating)
      ensures measurementsCalculated && eventCount > 0 ==> locatingEvent
      ensures !(measurementsCalculated && eventCount > 0) ==> locatingEvent == old(locatingEvent)
      ensures iterationsTaken == old(iterationsTaken) && Settings() == old(Settings())
      ensures hasAnchorEpoch == old(hasAnchorEpoch) && predictTimeSpan == old(predictTimeSpan) && isPredicting == old(isPredicting)
    {
      if !measurementsCalculated {
        currentState := Estimating;
      } else if eventCount > 0 {
        currentState := Locating;
        locatingEvent := true;
      } else {
        currentState := Estimating;
      }
    }

    /** ProcessEvent: the estimator moves on to estimating only when every
        active event has been located; otherwise it keeps locating. */
    method ProcessEvent(eventsLocated: seq<bool>)
      modifies this
      ensures locatingEvent <==> !AllLocated(eventsLocated)
      ensures AllLocated(eventsLocated) ==> currentState == Estimating
      ensures !AllLocated(eventsLocated) ==> currentState == old(currentState)
      ensures iterationsTaken == old(iterationsTaken) && Settings() == old(Settings())
      ensures hasAnchorEpoch == old(hasAnchorEpoch) && predictTimeSpan == old(predictTimeSpan) && isPredicting == old(isPredicting)
    {
      locatingEvent := false;
      var i := 0;
      while i < |eventsLocated|
        invariant 0 <= i <= |eventsLocated|
        invariant locatingEvent <==> exists k :: 0 <= k < i && !eventsLocated[k]
        invariant currentState == old(currentState)
        invariant iterationsTaken == old(iterationsTaken) && Settings() == old(Settings())
        invariant hasAnchorEpoch == old(hasAnchorEpoch) && predictTimeSpan == old(predictTimeSpan) && isPredicting == old(isPredicting)
      {
        if !eventsLocated[i] {
          locatingEvent := true;
        }
        i := i + 1;
      }
      if !locatingEvent {
        currentState := Estimating;
      }
    }

    /** CheckCompletion: one more iteration is counted and the run is
        finished. */
    method CheckCompletion()
      modifies this
      ensures iterationsTaken == old(iterationsTaken) + 1
      ensures currentState == Finished
      ensures Settings() == old(Settings()) && hasAnchorEpoch == old(hasAnchorEpoch) && predictTimeSpan == old(predictTimeSpan) && isPredicting == old(isPredicting)
    {
      iterationsTaken := iterationsTaken + 1;
      currentState := Finished;
    }

    /** StateCleanUp: a run that reaches CHECKINGRUN with an anchor epoch or
        a prediction span, and is not yet predicting, starts predicting and
        goes back to propagating; FindTimeStep's choice of the next state is
        an input. */
    method StateCleanUp(afterCleanUpStep: SolverState)
      modifies this
      ensures old(currentState) == CheckingRun && (old(hasAnchorEpoch) || old(predictTimeSpan) != 0.0) && !old(isPredicting) ==>
                isPredicting && currentState == afterCleanUpStep
      ensures !(old(currentState) == CheckingRun && (old(hasAnchorEpoch) || old(predictTimeSpan) != 0.0) && !old(isPredicting)) ==>
                isPredicting == old(isPredicting) && currentState == old(currentState)
      ensures iterationsTaken == old(iterationsTaken) && Settings() == old(Settings())
    {
      if currentState == CheckingRun {
        if (hasAnchorEpoch || predictTimeSpan != 0.0) && !isPredicting {
          isPredicting := true;
          currentState := Propagating;
          currentState := afterCleanUpStep;
        }
      }
    }

    /** AdvanceState: runs the handler of the current state, then the clean
        up; an unknown state is an error, and so is a failure to add the
        .mat data after CheckCompletion. */
    method AdvanceState(inputs: StepInputs) returns (res: Result<SolverState>)
      modifies this
      ensures var next := Advanced(Step(old(currentState), old(isPredicting)), inputs, old(hasAnchorEpoch), old(predictTimeSpan));
              && (next.Ok? ==> res == Ok(next.value.state) && currentState == next.value.state && isPredicting == next.value.predicting)
              && (next.Err? ==> res == Err(next.msg))
      ensures res.Err? && old(currentState) != CheckingRun ==> currentState == old(currentState)
      ensures old(currentState) == CheckingRun ==> iterationsTaken == old(iterationsTaken) + 1 && currentState == Finished
      ensures old(currentState) != CheckingRun ==> iterationsTaken == old(iterationsTaken)
      ensures Settings() == old(Settings())
    {
      match currentState {
        case Initializing =>
          currentState := inputs.afterInitialization;
        case Propagating =>
          currentState := inputs.afterPropagation;
        case Calculating =>
          CalculateData(inputs.measurementsCalculated, inputs.eventCount);
        case Locating =>
          ProcessEvent(inputs.eventsLocated);
        case Estimating =>
          currentState := inputs.afterEstimation;
        case CheckingRun =>
          CheckCompletion();
          if inputs.hasMatWriter && !inputs.matDataAdded {
            return Err(MatDataMessage);
          }
        case Finished =>
          currentState := inputs.afterRunComplete;
        case _ =>
          return Err(UnknownStateMessage);
      }
      StateCleanUp(inputs.afterCleanUpStep);
      return Ok(currentState);
    }

    /** TakeAction: RunBackwards and RunForwards restart the state machine
        in the given direction (smoothing when backwards); UseProvidedFlags
        stops overwriting edit flags; other actions go to the base
        estimator, whose answer is baseResult. */
    method TakeAction(action: string, baseResult: bool) returns (r: bool)
      modifies this
      ensures action == "RunBackwards" ==> r && currentState == Initializing && isSmoothing && !measForward
      ensures action == "RunForwards" ==> r && currentState == Initializing && !isSmoothing && measForward
      ensures action == "UseProvidedFlags" ==> r && !overwriteEditFlags && currentState == old(currentState)
      ensures action !in {"RunBackwards", "RunForwards", "UseProvidedFlags"} ==>
                r == baseResult && currentState == old(currentState) && overwriteEditFlags == old(overwriteEditFlags)
      ensures action != "UseProvidedFlags" ==> overwriteEditFlags == old(overwriteEditFlags)
      ensures Settings() == old(Settings()) && iterationsTaken == old(iterationsTaken)
    {
      if action == "RunBackwards" {
        currentState := Initializing;
        isSmoothing := true;
        measForward := false;
        return true;
      }
      if action == "RunForwards" {
        currentState := Initializing;
        isSmoothing := false;
        measForward := true;
        return true;
      }
      if action == "UseProvidedFlags" {
        overwriteEditFlags := false;
        return true;
      }
      return baseResult;
    }

    /** OverwriteEditFlag and WriteEditFlag both answer overwriteEditFlags. */
    predicate OverwriteEditFlag()
      reads this
    {
      overwriteEditFlags
    }
  }

  // ---------------------------------------------------------------------
  // Searching the forward-filter epochs

  predicate SortedAsc(e: seq<real>)
  {
    forall i, j :: 0 <= i < j < |e| ==> e[i] <= e[j]
  }

  predicate HasEpochNear(e: seq<real>, target: real, tol: real)
  {
    exists k :: 0 <= k < |e| && IsEqual(target, e[k], tol)
  }

  /** The binary search shared by VerifySmoothTimeStep and
      MatchSmoothTimeStep. What it finds is always within tolerance of the
      target; on ascending epochs it finds one whenever one exists, because
      an epoch that misses the tolerance lies a full tolerance away from
      every epoch that meets it. */
  method BinarySearchEpoch(e: seq<real>, target: real, tol: real) returns (found: bool, index: int)
    ensures found ==> 0 <= index < |e| && IsEqual(target, e[index], tol)
    ensures SortedAsc(e) && HasEpochNear(e, target, tol) ==> found
  {
    found := false;
    var high := |e| - 1;
    var low := 0;
    index := 0;
    while high >= low
      invariant 0 <= low && high < |e| && low <= high + 1
      invariant !found
      invariant SortedAsc(e) ==> forall k :: 0 <= k < |e| && IsEqual(target, e[k], tol) ==> low <= k <= high
      decreases high - low + 1
    {
      index := low + (high - low) / 2;
      if IsEqual(target, e[index], tol) {
        found := true;
        break;
      }
      if e[index] > target {
        high := index - 1;
      } else {
        low := index + 1;
      }
    }
  }

  /** VerifySmoothTimeStep: on ascending forward-filter epochs, true exactly
      when some epoch equals the current epoch within the tolerance. */
  method VerifySmoothTimeStep(forwardEpochs: seq<real>, currentEpoch: real, tol: real) returns (found: bool)
    ensures found ==> HasEpochNear(forwardEpochs, currentEpoch, tol)
    ensures SortedAsc(forwardEpochs) ==> (found <==> HasEpochNear(forwardEpochs, currentEpoch, tol))
  {
    var index;
    found, index := BinarySearchEpoch(forwardEpochs, currentEpoch, tol);
  }

  /** The first index of the run of epochs, each equal to the next within
      the tolerance, that ends at k. */
  function RunStart(e: seq<real>, k: nat, tol: real): (s: nat)
    requires k < |e|
    ensures s <= k
    ensures forall j :: s < j <= k ==> IsEqual(e[j - 1], e[j], tol)
    ensures s > 0 ==> !IsEqual(e[s - 1], e[s], tol)
  {
    if k > 0 && IsEqual(e[k - 1], e[k], tol) then RunStart(e, k - 1, tol) else k
  }

  /** The rewind of MatchSmoothTimeStep: steps back while the previous
      epoch equals the current one within the tolerance. */
  method RewindRun(e: seq<real>, k: nat, tol: real) returns (index: nat)
    requires k < |e|
    ensures index == RunStart(e, k, tol)
  {
    index := k;
    while index > 0 && IsEqual(e[index - 1], e[index], tol)
      invariant 0 <= index <= k
      invariant RunStart(e, k, tol) == RunStart(e, index, tol)
    {
      index := index - 1;
    }
  }

  const SecondsPerDay: real := 86400.0

  /** MatchSmoothTimeStep: finds the back filter's last epoch among the
      forward-filter epochs, rewinds to the first epoch of its run of equal
      epochs, and answers the time in seconds from the current epoch to
      the forward epoch just before that run. No match is an error, and so
      is a run that starts at the first epoch (the epoch before it is read
      at index -1). */
  method MatchSmoothTimeStep(forwardEpochs: seq<real>, lastBackEpoch: real, currentEpoch: real, tol: real)
    returns (res: Result<real>)
    ensures SortedAsc(forwardEpochs) && !HasEpochNear(forwardEpochs, lastBackEpoch, tol) ==> res.Err?
    ensures res.Ok? ==>
              exists k :: 0 <= k < |forwardEpochs| && IsEqual(lastBackEpoch, forwardEpochs[k], tol) &&
                          RunStart(forwardEpochs, k, tol) > 0 &&
                          res.value == (forwardEpochs[RunStart(forwardEpochs, k, tol) - 1] - currentEpoch) * SecondsPerDay
    ensures SortedAsc(forwardEpochs) && HasEpochNear(forwardEpochs, lastBackEpoch, tol) && res.Err? ==>
              exists k :: 0 <= k < |forwardEpochs| && IsEqual(lastBackEpoch, forwardEpochs[k], tol) &&
                          RunStart(forwardEpochs, k, tol) == 0
  {
    var found, index := BinarySearchEpoch(forwardEpochs, lastBackEpoch, tol);
    if !found {
      return Err("Could not find a valid epoch for back filter to use in the forward filter");
    }
    ghost var k := index;
    index := RewindRun(forwardEpochs, index, tol);
    if index == 0 {
      assert IsEqual(lastBackEpoch, forwardEpochs[k], tol) && RunStart(forwardEpochs, k, tol) == 0;
      return Err("vector::at index -1 is out of range");
    }
    res := Ok((forwardEpochs[index - 1] - currentEpoch) * SecondsPerDay);
    assert IsEqual(lastBackEpoch, forwardEpochs[k], tol) && RunStart(forwardEpochs, k, tol) == index;
  }

  // ---------------------------------------------------------------------
  // The covariance conversion matrix

  /** Where a state-map position falls in the conversion matrix: inside
      the 6x6 block of a CartesianState starting at start, or on the unit
      diagonal. */
  datatype Slot = InBlock(start: nat, off: nat) | Diagonal

  function BlockSlots(start: nat): (s: seq<Slot>)
    ensures |s| == 6
    ensures forall k :: 0 <= k < 6 ==> s[k] == InBlock(start, k)
  {
    seq(6, k requires 0 <= k < 6 => InBlock(start, k))
  }

  /** A slot that claims a block names a CartesianState start, an offset
      below 6, and its own position. */
  predicate SlotFits(names: seq<string>, slots: seq<Slot>, base: nat, p: nat)
    requires p < |slots|
  {
    slots[p].InBlock? ==>
      slots[p].start < |names| && names[slots[p].start] == "CartesianState" &&
      slots[p].off < 6 && slots[p].start + slots[p].off == base + p
  }

  /** The walk of the state map from position i: a CartesianState takes six
      positions for its block, anything else one diagonal position; a block
      that would run past the end is an index error. */
  function WalkFrom(names: seq<string>, i: nat): (r: Result<seq<Slot>>)
    requires i <= |names|
    ensures r.Ok? ==> |r.value| == |names| - i
    decreases |names| - i
  {
    if i == |names| then Ok([])
    else if names[i] == "CartesianState" then
      if i + 6 > |names| then Err("Rmatrix index out of bounds")
      else Prepend(BlockSlots(i), WalkFrom(names, i + 6))
    else Prepend([Diagonal], WalkFrom(names, i + 1))
  }

  /** Every slot of a walk names the block it belongs to and sits at its
      own position within it. */
  lemma {:induction false} WalkFits(names: seq<string>, i: nat)
    requires i <= |names|
    requires WalkFrom(names, i).Ok?
    ensures forall p :: 0 <= p < |WalkFrom(names, i).value| ==> SlotFits(names, WalkFrom(names, i).value, i, p)
    decreases |names| - i
  {
    var s := WalkFrom(names, i).value;
    if i < |names| {
      if names[i] == "CartesianState" {
        WalkFits(names, i + 6);
        var rest := WalkFrom(names, i + 6).value;
        assert s == BlockSlots(i) + rest;
        forall p | 0 <= p < |s| ensures SlotFits(names, s, i, p) {
          if p >= 6 { assert s[p] == rest[p - 6]; assert SlotFits(names, rest, i + 6, p - 6); }
        }
      } else {
        WalkFits(names, i + 1);
        var rest := WalkFrom(names, i + 1).value;
        assert s == [Diagonal] + rest;
        forall p | 0 <= p < |s| ensures SlotFits(names, s, i, p) {
          if p >= 1 { assert s[p] == rest[p - 1]; assert SlotFits(names, rest, i + 1, p - 1); }
        }
      }
    }
  }

  function Prepend(done: seq<Slot>, r: Result<seq<Slot>>): Result<seq<Slot>>
  {
    match r
    case Ok(rest) => Ok(done + rest)
    case Err(m) => Err(m)
  }

  /** The 6x6 blocks the conversion uses: one per CartesianState entry. */
  predicate BlocksFit(names: seq<string>, blocks: seq<Matrix>)
  {
    |blocks| == |names| &&
    forall i :: 0 <= i < |names| && names[i] == "CartesianState" ==> IsRect(blocks[i], 6, 6)
  }

  predicate AllSlotsFit(names: seq<string>, slots: seq<Slot>)
  {
    forall p :: 0 <= p < |slots| ==> SlotFits(names, slots, 0, p)
  }

  /** The conversion matrix entry at (r, c) for a laid-out state map: the
      block entry when both positions lie in the same block, 1 on a
      diagonal position, 0 elsewhere. */
  function Entry(names: seq<string>, blocks: seq<Matrix>, slots: seq<Slot>, r: nat, c: nat): real
    requires BlocksFit(names, blocks) && AllSlotsFit(names, slots)
    requires r < |slots| && c < |slots|
  {
    assert SlotFits(names, slots, 0, r) && SlotFits(names, slots, 0, c);
    if slots[r].InBlock? && slots[c].InBlock? && slots[r].start == slots[c].start then
      blocks[slots[r].start][slots[r].off][slots[c].off]
    else if r == c && slots[r].Diagonal? then 1.0
    else 0.0
  }

  /** Appending slots keeps the entries among the earlier positions. */
  lemma EntryPrefix(names: seq<string>, blocks: seq<Matrix>, done: seq<Slot>, more: seq<Slot>, r: nat, c: nat)
    requires BlocksFit(names, blocks) && AllSlotsFit(names, done + more) && AllSlotsFit(names, done)
    requires r < |done| && c < |done|
    ensures Entry(names, blocks, done + more, r, c) == Entry(names, blocks, done, r, c)
  {
    assert (done + more)[r] == done[r] && (done + more)[c] == done[c];
  }

  /** Writes a 6x6 block at (i, i). */
  method WriteBlock(a: array2<real>, i: nat, m: Matrix)
    requires i + 6 <= a.Length0 && i + 6 <= a.Length1 && IsRect(m, 6, 6)
    modifies a
    ensures forall r, c :: 0 <= r < a.Length0 && 0 <= c < a.Length1 ==>
              a[r, c] == if i <= r < i + 6 && i <= c < i + 6 then m[r - i][c - i] else old(a[r, c])
  {
    var row := 0;
    while row < 6
      invariant 0 <= row <= 6
      invariant forall r, c :: 0 <= r < a.Length0 && 0 <= c < a.Length1 ==>
                  a[r, c] == if i <= r < i + row && i <= c < i + 6 then m[r - i][c - i] else old(a[r, c])
    {
      var col := 0;
      while col < 6
        invariant 0 <= col <= 6
        invariant forall r, c :: 0 <= r < a.Length0 && 0 <= c < a.Length1 ==>
                    a[r, c] == if (i <= r < i + row && i <= c < i + 6) || (r == i + row && i <= c < i + col)
                               then m[r - i][c - i] else old(a[r, c])
      {
        a[i + row, i + col] := m[row][col];
        col := col + 1;
      }
      row := row + 1;
    }
  }

  /** After a block is laid out at i, the entries of the extended layout:
      as before among earlier positions, the block's own entries inside it,
      and 0 between the block and any earlier position. */
  lemma EntryAfterBlock(names: seq<string>, blocks: seq<Matrix>, done: seq<Slot>, i: nat)
    requires BlocksFit(names, blocks) && AllSlotsFit(names, done) && |done| == i
    requires i + 6 <= |names| && names[i] == "CartesianState"
    ensures AllSlotsFit(names, done + BlockSlots(i))
    ensures forall r, c :: 0 <= r < i + 6 && 0 <= c < i + 6 ==>
              Entry(names, blocks, done + BlockSlots(i), r, c) ==
                if r < i && c < i then Entry(names, blocks, done, r, c)
                else if i <= r && i <= c then blocks[i][r - i][c - i]
                else 0.0
  {
    var s := done + BlockSlots(i);
    forall p | 0 <= p < |s| ensures SlotFits(names, s, 0, p) {
      if p < i { assert s[p] == done[p]; assert SlotFits(names, done, 0, p); }
    }
    forall r, c | 0 <= r < i + 6 && 0 <= c < i + 6
      ensures Entry(names, blocks, s, r, c) ==
                if r < i && c < i then Entry(names, blocks, done, r, c)
                else if i <= r && i <= c then blocks[i][r - i][c - i]
                else 0.0
    {
      if r < i && c < i {
        EntryPrefix(names, blocks, done, BlockSlots(i), r, c);
      } else if r < i {
        assert SlotFits(names, done, 0, r);
      } else if c < i {
        assert SlotFits(names, done, 0, c);
      }
    }
  }

  /** After a diagonal position is laid out at i: as before among earlier
      positions, 1 at (i, i), and 0 between i and any earlier position. */
  lemma EntryAfterDiagonal(names: seq<string>, blocks: seq<Matrix>, done: seq<Slot>, i: nat)
    requires BlocksFit(names, blocks) && AllSlotsFit(names, done) && |done| == i
    ensures AllSlotsFit(names, done + [Diagonal])
    ensures forall r, c :: 0 <= r < i + 1 && 0 <= c < i + 1 ==>
              Entry(names, blocks, done + [Diagonal], r, c) ==
                if r < i && c < i then Entry(names, blocks, done, r, c)
                else if r == c then 1.0
                else 0.0
  {
    var s := done + [Diagonal];
    forall p | 0 <= p < |s| ensures SlotFits(names, s, 0, p) {
      if p < i { assert s[p] == done[p]; assert SlotFits(names, done, 0, p); }
    }
    forall r, c | 0 <= r < i + 1 && 0 <= c < i + 1
      ensures Entry(names, blocks, s, r, c) ==
                if r < i && c < i then Entry(names, blocks, done, r, c)
                else if r == c then 1.0
                else 0.0
    {
      if r < i && c < i {
        EntryPrefix(names, blocks, done, [Diagonal], r, c);
      }
    }
  }

  /** The walk from a position reached by the walk from the start. */
  lemma WalkStep(names: seq<string>, done: seq<Slot>, i: nat)
    requires i < |names|
    ensures names[i] == "CartesianState" && i + 6 <= |names| ==>
              Prepend(done, WalkFrom(names, i)) == Prepend(done + BlockSlots(i), WalkFrom(names, i + 6))
    ensures names[i] != "CartesianState" ==>
              Prepend(done, WalkFrom(names, i)) == Prepend(done + [Diagonal], WalkFrom(names, i + 1))
  {
    if names[i] == "CartesianState" && i + 6 <= |names| {
      match WalkFrom(names, i + 6)
      case Ok(rest) => assert done + (BlockSlots(i) + rest) == done + BlockSlots(i) + rest;
      case Err(_) =>
    } else if names[i] != "CartesianState" {
      match WalkFrom(names, i + 1)
      case Ok(rest) => assert done + ([Diagonal] + rest) == done + [Diagonal] + rest;
      case Err(_) =>
    }
  }

  /** CovarianceConvertionMatrix: the n-by-n matrix over the state map with
      the 6x6 conversion block of each CartesianState on the diagonal at its
      position and 1 at every other diagonal position, 0 elsewhere; a block
      that does not fit is an index error. */
  method CovarianceConversionMatrix(names: seq<string>, blocks: seq<Matrix>) returns (res: Result<array2<real>>)
    requires BlocksFit(names, blocks)
    ensures res.Err? <==> WalkFrom(names, 0).Err?
    ensures res.Ok? ==>
              fresh(res.value) && res.value.Length0 == |names| && res.value.Length1 == |names| &&
              AllSlotsFit(names, WalkFrom(names, 0).value) &&
              forall r, c :: 0 <= r < |names| && 0 <= c < |names| ==>
                res.value[r, c] == Entry(names, blocks, WalkFrom(names, 0).value, r, c)
  {
    var n := |names|;
    var a := new real[n, n]((r, c) => 0.0);
    var i := 0;
    ghost var done: seq<Slot> := [];
    match WalkFrom(names, 0) {
      case Ok(rest) => assert [] + rest == rest;
      case Err(_) =>
    }
    while i < n
      invariant 0 <= i <= n && |done| == i
      invariant AllSlotsFit(names, done)
      invariant WalkFrom(names, 0) == Prepend(done, WalkFrom(names, i))
      invariant forall r, c :: 0 <= r < n && 0 <= c < n ==>
                  a[r, c] == if r < i && c < i then Entry(names, blocks, done, r, c) else 0.0
    {
      WalkStep(names, done, i);
      if names[i] == "CartesianState" {
        if i + 6 > n {
          return Err("Rmatrix index out of bounds");
        }
        WriteBlock(a, i, blocks[i]);
        EntryAfterBlock(names, blocks, done, i);
        done := done + BlockSlots(i);
        i := i + 6;
      } else {
        a[i, i] := 1.0;
        EntryAfterDiagonal(names, blocks, done, i);
        done := done + [Diagonal];
        i := i + 1;
      }
    }
    assert WalkFrom(names, n) == Ok([]);
    assert done + [] == done;
    WalkFits(names, 0);
    return Ok(a);
  }

  /** A state map without Cartesian states lays out one diagonal position
      each, so the conversion matrix is the identity. */
  lemma {:induction false} NoCartesianIsDiagonal(names: seq<string>, i: nat)
    requires i <= |names|
    requires forall k :: i <= k < |names| ==> names[k] != "CartesianState"
    ensures WalkFrom(names, i) == Ok(Diagonals(|names| - i))
    decreases |names| - i
  {
    if i < |names| {
      assert names[i] != "CartesianState";
      NoCartesianIsDiagonal(names, i + 1);
      assert WalkFrom(names, i) == Prepend([Diagonal], WalkFrom(names, i + 1));
    }
  }

  /** n diagonal positions. */
  function Diagonals(n: nat): (s: seq<Slot>)
    ensures |s| == n && forall k :: 0 <= k < n ==> s[k] == Diagonal
  {
    if n == 0 then [] else [Diagonal] + Diagonals(n - 1)
  }

  /** Without Cartesian states every conversion entry is that of the
      identity. */
  lemma NoCartesianIsIdentity(names: seq<string>, blocks: seq<Matrix>, r: nat, c: nat)
    requires BlocksFit(names, blocks)
    requires forall k :: 0 <= k < |names| ==> names[k] != "CartesianState"
    requires r < |names| && c < |names|
    ensures WalkFrom(names, 0).Ok?
    ensures AllSlotsFit(names, WalkFrom(names, 0).value)
    ensures Entry(names, blocks, WalkFrom(names, 0).value, r, c) == if r == c then 1.0 else 0.0
  {
    NoCartesianIsDiagonal(names, 0);
    WalkFits(names, 0);
  }

  /** Every entry off the diagonal blocks is zero: a nonzero entry is on
      the diagonal or inside one CartesianState block. */
  lemma ConversionIsBlockDiagonal(names: seq<string>, blocks: seq<Matrix>, r: nat, c: nat)
    requires BlocksFit(names, blocks) && WalkFrom(names, 0).Ok?
    requires r < |names| && c < |names|
    ensures AllSlotsFit(names, WalkFrom(names, 0).value)
    ensures var s := WalkFrom(names, 0).value;
            Entry(names, blocks, s, r, c) != 0.0 ==>
              r == c || (s[r].InBlock? && s[c].InBlock? && s[r].start == s[c].start &&
                         s[r].start <= r < s[r].start + 6 && s[r].start <= c < s[r].start + 6)
  {
    var s := WalkFrom(names, 0).value;
    WalkFits(names, 0);
    assert SlotFits(names, s, 0, r) && SlotFits(names, s, 0, c);
  }

  // ---------------------------------------------------------------------
  // Sigma editing

  /** The observation record the measurement manager hands out. */
  class ObservationRecord {
    var inUsed: bool
    var removedReason: string

    constructor (inUsed: bool, removedReason: string)
      ensures this.inUsed == inUsed && this.removedReason == removedReason
    {
      this.inUsed := inUsed;
      this.removedReason := removedReason;
    }
  }

  /** Some component's residual, after the state-offset correction, reaches
      constMult times its predicted sigma. */
  predicate ExceedsSigma(observed: seq<real>, computed: seq<real>, hx: seq<real>, sigma: seq<real>, constMult: real)
    requires |computed| == |observed| && |hx| == |observed| && |sigma| == |observed|
  {
    exists i :: 0 <= i < |observed| && Abs(observed[i] - computed[i] - hx[i]) >= constMult * sigma[i]
  }

  /** DataFilter: an observation with a component whose residual reaches
      constMult sigma is marked unused for reason "SIG"; the answer is
      whether the observation is still in use. sigma holds the square roots
      of the diagonal of H P H' + R and hx the state-offset term H x (zero
      without an offset). */
  method DataFilter(obs: ObservationRecord, observed: seq<real>, computed: seq<real>, hx: seq<real>,
                    sigma: seq<real>, constMult: real) returns (inUse: bool)
    requires |computed| == |observed| && |hx| == |observed| && |sigma| == |observed|
    modifies obs
    ensures ExceedsSigma(observed, computed, hx, sigma, constMult) ==> !obs.inUsed && obs.removedReason == "SIG"
    ensures !ExceedsSigma(observed, computed, hx, sigma, constMult) ==>
              obs.inUsed == old(obs.inUsed) && obs.removedReason == old(obs.removedReason)
    ensures inUse == obs.inUsed
  {
    var i := 0;
    while i < |observed|
      invariant 0 <= i <= |observed|
      invariant forall k :: 0 <= k < i ==> Abs(observed[k] - computed[k] - hx[k]) < constMult * sigma[k]
      invariant obs.inUsed == old(obs.inUsed) && obs.removedReason == old(obs.removedReason)
    {
      if Abs(observed[i] - computed[i] - hx[i]) >= constMult * sigma[i] {
        obs.inUsed := false;
        obs.removedReason := "SIG";
        break;
      }
      i := i + 1;
    }
    return obs.inUsed;
  }
}
