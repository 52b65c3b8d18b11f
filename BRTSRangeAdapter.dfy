/** The Bilateral Ranging Transponder System (BRTS) range adapter. It walks
    the legs of every signal path, adding up the C-value (light-time range,
    enabled range corrections and hardware delays) and the corrections,
    sets the measurement's feasibility from the legs' reasons, tags the
    epoch at the transmitter or the receiver, and, for a BRTS range
    measurement, scales the result by the multiplier before noise and bias
    are added. Derivatives of a spacecraft parameter are scaled the same
    way. The signal data of the legs, the random draws and the error
    model's biases are inputs. */
module BRTSRangeAdapterModel {
  import opened Common

  /** Speed of light in vacuum (m/s), metres to kilometres, seconds per day. */
  const SpeedOfLightVacuum: real := 299792458.0
  const MToKm: real := 0.001
  const SecsPerDay: real := 86400.0

  /** The measurement type whose values the adapter scales and perturbs. */
  const RangeType := "BRTS_Range"

  const DerivativeSizeError := "Derivative data size is a different size than expected"
  /** What `at(0)` throws on an empty derivative table. */
  const RangeCheckError := "vector::_M_range_check"

  function NotSetError(instanceName: string): string
  {
    "Measurement data was requested for " + instanceName + " before the measurement was set"
  }

  function DerivativesNotSetError(instanceName: string): string
  {
    "Measurement derivative data was requested for " + instanceName + " before the measurement was set"
  }

  /** One media, ET-TAI or relativistic correction attached to a leg. */
  datatype LegCorrection = LegCorrection(useCorrection: bool, correctionType: string, value: real)

  /** The signal data of one leg that the adapter reads. */
  datatype Leg = Leg(
    feasibilityReason: string,
    feasibilityValue: real,
    stationParticipant: bool,
    rangeMagnitude: real,
    corrections: seq<LegCorrection>,
    tDelay: real,
    rDelay: real,
    tPrecTime: real,
    rPrecTime: real)

  /** The feasibility flag, reason and value of a measurement. */
  datatype Feasibility = Feasibility(isFeasible: bool, reason: string, value: real)

  /** The feasibility a computation starts from. */
  const Unset := Feasibility(false, "", 90.0)

  // ---------------------------------------------------------------------
  // Feasibility reasons
  // ---------------------------------------------------------------------

  predicate StartsWith(reason: string, c: char)
  {
    |reason| > 0 && reason[0] == c
  }

  /** A leg whose reason reports a blocked line of sight or a horizon. */
  predicate Blocking(leg: Leg)
  {
    StartsWith(leg.feasibilityReason, 'B') || StartsWith(leg.feasibilityReason, 'H')
  }

  /** A feasible leg that has a ground station among its participants. */
  predicate StationNominal(leg: Leg)
  {
    StartsWith(leg.feasibilityReason, 'N') && leg.stationParticipant
  }

  /** A reason that a later leg may still replace. */
  predicate Undecided(f: Feasibility)
  {
    f.reason == "" || f.reason == "N"
  }

  /** The reason a blocking leg reports: the leg number is put after 'B', and
      'H' becomes "HORP". */
  function BlockingReason(leg: Leg, legIndex: nat): (r: string)
    requires Blocking(leg)
    ensures r != "" && r != "N"
    ensures StartsWith(leg.feasibilityReason, 'B') ==> r[0] == 'B'
    ensures StartsWith(leg.feasibilityReason, 'H') ==> r == "HORP"
  {
    if StartsWith(leg.feasibilityReason, 'B') then
      "B" + NatToString(legIndex) + leg.feasibilityReason[1..]
    else
      "HORP"
  }

  /** The measurement's feasibility after the leg numbered legIndex. */
  function LegFeasibility(f: Feasibility, leg: Leg, legIndex: nat): Feasibility
  {
    if StartsWith(leg.feasibilityReason, 'N') then
      if leg.stationParticipant && f.reason == "" then Feasibility(true, "N", leg.feasibilityValue) else f
    else if Blocking(leg) && Undecided(f) then
      Feasibility(false, BlockingReason(leg, legIndex), leg.feasibilityValue)
    else
      f
  }

  /** The feasibility after the first n legs of a path; legs count from 1. */
  function PathFeasibility(f: Feasibility, legs: seq<Leg>, n: nat): Feasibility
    requires n <= |legs|
  {
    if n == 0 then f else LegFeasibility(PathFeasibility(f, legs, n - 1), legs[n - 1], n)
  }

  /** The feasibility after the first k paths; the leg count restarts per path. */
  function PathsFeasibility(f: Feasibility, paths: seq<seq<Leg>>, k: nat): Feasibility
    requires k <= |paths|
  {
    if k == 0 then f else PathFeasibility(PathsFeasibility(f, paths, k - 1), paths[k - 1], |paths[k - 1]|)
  }

  /** The measurement is feasible exactly when its reason is "N". */
  predicate Consistent(f: Feasibility)
  {
    f.isFeasible <==> f.reason == "N"
  }

  lemma {:induction false} PathKeepsConsistent(f: Feasibility, legs: seq<Leg>, n: nat)
    requires n <= |legs|
    requires Consistent(f)
    ensures Consistent(PathFeasibility(f, legs, n))
  {
    if n > 0 {
      PathKeepsConsistent(f, legs, n - 1);
    }
  }

  /** Whatever the legs report, a computed measurement is feasible exactly
      when its reason is "N". */
  lemma {:induction false} FeasibleIffNominal(paths: seq<seq<Leg>>, k: nat)
    requires k <= |paths|
    ensures Consistent(PathsFeasibility(Unset, paths, k))
  {
    if k > 0 {
      FeasibleIffNominal(paths, k - 1);
      PathKeepsConsistent(PathsFeasibility(Unset, paths, k - 1), paths[k - 1], |paths[k - 1]|);
    }
  }

  /** Once a blocking reason is set, no later leg changes the feasibility. */
  lemma {:induction false} DecidedStays(f: Feasibility, legs: seq<Leg>, n: nat)
    requires n <= |legs|
    requires !Undecided(f)
    ensures PathFeasibility(f, legs, n) == f
  {
    if n > 0 {
      DecidedStays(f, legs, n - 1);
    }
  }

  /** The index of the first blocking leg among the first n, or n if none. */
  function FirstBlocking(legs: seq<Leg>, n: nat): (b: nat)
    requires n <= |legs|
    ensures b <= n
    ensures b < n ==> Blocking(legs[b])
    ensures forall j :: 0 <= j < b ==> !Blocking(legs[j])
  {
    if n == 0 then 0
    else if FirstBlocking(legs, n - 1) < n - 1 then FirstBlocking(legs, n - 1)
    else if Blocking(legs[n - 1]) then n - 1
    else n
  }

  /** The index of the first feasible station leg among the first n, or n if none. */
  function FirstStationNominal(legs: seq<Leg>, n: nat): (s: nat)
    requires n <= |legs|
    ensures s <= n
    ensures s < n ==> StationNominal(legs[s])
    ensures forall j :: 0 <= j < s ==> !StationNominal(legs[j])
  {
    if n == 0 then 0
    else if FirstStationNominal(legs, n - 1) < n - 1 then FirstStationNominal(legs, n - 1)
    else if StationNominal(legs[n - 1]) then n - 1
    else n
  }

  /** What a path's legs make of an unset feasibility: the first blocking leg
      decides, with its rewritten reason; without one, the first feasible
      station leg makes the measurement feasible; otherwise it stays unset. */
  function PathOutcome(legs: seq<Leg>, n: nat): Feasibility
    requires n <= |legs|
  {
    var b := FirstBlocking(legs, n);
    var s := FirstStationNominal(legs, n);
    if b < n then Feasibility(false, BlockingReason(legs[b], b + 1), legs[b].feasibilityValue)
    else if s < n then Feasibility(true, "N", legs[s].feasibilityValue)
    else Unset
  }

  lemma {:induction false} FirstBlockingDecides(legs: seq<Leg>, n: nat)
    requires n <= |legs|
    ensures PathFeasibility(Unset, legs, n) == PathOutcome(legs, n)
  {
    if n > 0 {
      FirstBlockingDecides(legs, n - 1);
      var b := FirstBlocking(legs, n - 1);
      var s := FirstStationNominal(legs, n - 1);
      var leg := legs[n - 1];
      if b < n - 1 {
        assert FirstBlocking(legs, n) == b;
      } else if Blocking(leg) {
        assert FirstBlocking(legs, n) == n - 1;
      } else if StationNominal(leg) {
        assert FirstBlocking(legs, n) == n;
        if s < n - 1 {
          assert FirstStationNominal(legs, n) == s;
        } else {
          assert FirstStationNominal(legs, n) == n - 1;
        }
      } else {
        assert FirstBlocking(legs, n) == n;
        if s < n - 1 {
          assert FirstStationNominal(legs, n) == s;
        } else {
          assert FirstStationNominal(legs, n) == n;
        }
      }
    }
  }

  // ---------------------------------------------------------------------
  // C-value and corrections
  // ---------------------------------------------------------------------

  /** Whether a correction is added: enabled and of type "Range". */
  predicate Counts(c: LegCorrection)
  {
    c.useCorrection && c.correctionType == "Range"
  }

  /** The sum of the counted corrections among the first n. */
  function RangeCorrections(cs: seq<LegCorrection>, n: nat): real
    requires n <= |cs|
  {
    if n == 0 then 0.0
    else RangeCorrections(cs, n - 1) + (if Counts(cs[n - 1]) then cs[n - 1].value else 0.0)
  }

  /** The transmit and receive hardware delays of a leg as a range in km. */
  function HardwareDelay(leg: Leg): real
  {
    (leg.tDelay + leg.rDelay) * SpeedOfLightVacuum * MToKm
  }

  /** All that a leg adds to the corrections. */
  function LegCorrectionTotal(leg: Leg): real
  {
    RangeCorrections(leg.corrections, |leg.corrections|) + HardwareDelay(leg)
  }

  /** The geometric range of the first n legs. */
  function PathRange(legs: seq<Leg>, n: nat): real
    requires n <= |legs|
  {
    if n == 0 then 0.0 else PathRange(legs, n - 1) + legs[n - 1].rangeMagnitude
  }

  /** The corrections of the first n legs. */
  function PathCorrection(legs: seq<Leg>, n: nat): real
    requires n <= |legs|
  {
    if n == 0 then 0.0 else PathCorrection(legs, n - 1) + LegCorrectionTotal(legs[n - 1])
  }

  /** The C-value of the first n legs, leg by leg in the order the adapter adds. */
  function PathValue(legs: seq<Leg>, n: nat): real
    requires n <= |legs|
  {
    if n == 0 then 0.0
    else PathValue(legs, n - 1) + legs[n - 1].rangeMagnitude
         + RangeCorrections(legs[n - 1].corrections, |legs[n - 1].corrections|) + HardwareDelay(legs[n - 1])
  }

  /** The C-value is the geometric range plus the corrections. */
  lemma {:induction false} ValueIsRangePlusCorrection(legs: seq<Leg>, n: nat)
    requires n <= |legs|
    ensures PathValue(legs, n) == PathRange(legs, n) + PathCorrection(legs, n)
  {
    if n > 0 {
      ValueIsRangePlusCorrection(legs, n - 1);
    }
  }

  /** A correction that is disabled or of another type adds nothing. */
  lemma {:induction false} UncountedCorrectionsIgnored(cs: seq<LegCorrection>, n: nat)
    requires n <= |cs|
    requires forall j :: 0 <= j < n ==> !Counts(cs[j])
    ensures RangeCorrections(cs, n) == 0.0
  {
    if n > 0 {
      UncountedCorrectionsIgnored(cs, n - 1);
    }
  }

  // ---------------------------------------------------------------------
  // Epoch
  // ---------------------------------------------------------------------

  function TransmitEpoch(leg: Leg): real
  {
    leg.tPrecTime - leg.tDelay / SecsPerDay
  }

  function ReceiveEpoch(leg: Leg): real
  {
    leg.rPrecTime + leg.rDelay / SecsPerDay
  }

  /** The epoch after the first n legs of the first path have been read. */
  function EpochAfter(legs: seq<Leg>, n: nat, atReceiver: bool, previous: real): real
    requires n <= |legs|
  {
    if n == 0 then previous
    else if !atReceiver then TransmitEpoch(legs[0])
    else if n == |legs| then ReceiveEpoch(legs[|legs| - 1])
    else previous
  }

  /** The measurement epoch: the receive time at the end of the path when the
      measurement is time-tagged at the receiver, otherwise the transmit
      time at its start; a path without legs leaves it as it was. */
  lemma EpochIsTaggedEnd(legs: seq<Leg>, atReceiver: bool, previous: real)
    ensures |legs| > 0 && atReceiver ==> EpochAfter(legs, |legs|, atReceiver, previous) == legs[|legs| - 1].rPrecTime + legs[|legs| - 1].rDelay / SecsPerDay
    ensures |legs| > 0 && !atReceiver ==> EpochAfter(legs, |legs|, atReceiver, previous) == legs[0].tPrecTime - legs[0].tDelay / SecsPerDay
    ensures |legs| == 0 ==> EpochAfter(legs, |legs|, atReceiver, previous) == previous
  {
  }

  /** Walks the legs of one path as the adapter's leg loop does, adding up
      the C-value and the corrections, updating the feasibility and, for the
      first path, the epoch. */
  method WalkPath(legs: seq<Leg>, f0: Feasibility, tagEpoch: bool, atReceiver: bool, epoch0: real)
    returns (value: real, correction: real, f: Feasibility, epoch: real)
    ensures value == PathValue(legs, |legs|)
    ensures correction == PathCorrection(legs, |legs|)
    ensures f == PathFeasibility(f0, legs, |legs|)
    ensures epoch == if tagEpoch then EpochAfter(legs, |legs|, atReceiver, epoch0) else epoch0
  {
    value, correction, f, epoch := 0.0, 0.0, f0, epoch0;
    var legIndex := 0;
    while legIndex < |legs|
      invariant 0 <= legIndex <= |legs|
      invariant value == PathValue(legs, legIndex)
      invariant correction == PathCorrection(legs, legIndex)
      invariant f == PathFeasibility(f0, legs, legIndex)
      invariant epoch == if tagEpoch then EpochAfter(legs, legIndex, atReceiver, epoch0) else epoch0
    {
      var current := legs[legIndex];
      legIndex := legIndex + 1;
      f := LegFeasibility(f, current, legIndex);
      value := value + current.rangeMagnitude;
      var counted := 0.0;
      var j := 0;
      while j < |current.corrections|
        invariant 0 <= j <= |current.corrections|
        invariant counted == RangeCorrections(current.corrections, j)
      {
        if Counts(current.corrections[j]) {
          counted := counted + current.corrections[j].value;
        }
        j := j + 1;
      }
      value := value + counted + HardwareDelay(current);
      correction := correction + counted + HardwareDelay(current);
      if tagEpoch {
        if atReceiver {
          if legIndex == |legs| {
            epoch := ReceiveEpoch(current);
          }
        } else {
          epoch := TransmitEpoch(legs[0]);
        }
      }
    }
  }

  /** The C-values of every path. */
  function PathValues(paths: seq<seq<Leg>>): (r: seq<real>)
    ensures |r| == |paths|
  {
    if paths == [] then []
    else PathValues(paths[..|paths| - 1]) + [PathValue(paths[|paths| - 1], |paths[|paths| - 1]|)]
  }

  /** The corrections of every path. */
  function PathCorrections(paths: seq<seq<Leg>>): (r: seq<real>)
    ensures |r| == |paths|
  {
    if paths == [] then []
    else PathCorrections(paths[..|paths| - 1]) + [PathCorrection(paths[|paths| - 1], |paths[|paths| - 1]|)]
  }

  /** The epoch the first path tags, or the previous one without paths. */
  function PathsEpoch(paths: seq<seq<Leg>>, atReceiver: bool, previous: real): real
  {
    if paths == [] then previous else EpochAfter(paths[0], |paths[0]|, atReceiver, previous)
  }

  /** Walks every signal path: the values and corrections per path, the
      feasibility across all of them and the epoch of the first. */
  method WalkPaths(paths: seq<seq<Leg>>, atReceiver: bool, epoch0: real)
    returns (values: seq<real>, corrections: seq<real>, f: Feasibility, epoch: real)
    ensures values == PathValues(paths)
    ensures corrections == PathCorrections(paths)
    ensures f == PathsFeasibility(Unset, paths, |paths|)
    ensures epoch == PathsEpoch(paths, atReceiver, epoch0)
  {
    values, corrections, f, epoch := [], [], Unset, epoch0;
    var i := 0;
    while i < |paths|
      invariant 0 <= i <= |paths|
      invariant values == PathValues(paths[..i])
      invariant corrections == PathCorrections(paths[..i])
      invariant f == PathsFeasibility(Unset, paths, i)
      invariant epoch == if i == 0 then epoch0 else PathsEpoch(paths, atReceiver, epoch0)
    {
      assert paths[..i + 1][..i] == paths[..i];
      var v, c;
      v, c, f, epoch := WalkPath(paths[i], f, i == 0, atReceiver, epoch);
      values := values + [v];
      corrections := corrections + [c];
      i := i + 1;
    }
    assert paths[..i] == paths;
  }

  // ---------------------------------------------------------------------
  // Multiplier, noise and bias
  // ---------------------------------------------------------------------

  /** The switches that decide what is added to a measurement. */
  datatype ErrorSettings = ErrorSettings(rangeOnly: bool, addNoise: bool, addBias: bool, usePassBias: bool)

  /** The bias added at one index: the pass bias at the epoch, or the
      measurement bias of that index. */
  function BiasAt(s: ErrorSettings, passBias: real, biases: seq<real>, i: nat): real
  {
    if s.usePassBias then passBias else if i < |biases| then biases[i] else 0.0
  }

  /** The biases the settings read cover the first n indices. */
  predicate BiasesCover(useType: string, s: ErrorSettings, biases: seq<real>, n: nat)
  {
    useType == RangeType && !s.rangeOnly && s.addBias && !s.usePassBias ==> |biases| >= n
  }

  /** A value (or correction) x at index i after ApplyBiasAndNoise. */
  function Applied(useType: string, multiplier: real, s: ErrorSettings, x: real, noise: real, bias: real): real
  {
    if useType != RangeType then x
    else if s.rangeOnly then x * multiplier
    else x * multiplier + (if s.addNoise then noise else 0.0) + (if s.addBias then bias else 0.0)
  }

  /** Noise and bias go into the value and the correction alike, so their
      difference, the light-time range, is only scaled by the multiplier;
      a measurement of another type passes through. */
  lemma AppliedKeepsRange(useType: string, multiplier: real, s: ErrorSettings, v: real, c: real, noise: real, bias: real)
    ensures useType == RangeType ==> Applied(useType, multiplier, s, v, noise, bias) - Applied(useType, multiplier, s, c, noise, bias) == (v - c) * multiplier
    ensures useType != RangeType ==> Applied(useType, multiplier, s, v, noise, bias) == v
  {
    if useType == RangeType {
      assert v * multiplier - c * multiplier == (v - c) * multiplier;
    }
  }

  /** With rangeOnly set, a BRTS range measurement gets no noise and no bias. */
  lemma RangeOnlyIsScaledOnly(multiplier: real, s: ErrorSettings, x: real, noise: real, bias: real)
    requires s.rangeOnly
    ensures Applied(RangeType, multiplier, s, x, noise, bias) == x * multiplier
  {
  }

  /** Every entry of xs after ApplyBiasAndNoise. */
  function AppliedAll(useType: string, multiplier: real, s: ErrorSettings, xs: seq<real>, noise: seq<real>,
                      passBias: real, biases: seq<real>): (r: seq<real>)
    requires |noise| == |xs|
    ensures |r| == |xs|
  {
    if xs == [] then []
    else
      var n := |xs| - 1;
      AppliedAll(useType, multiplier, s, xs[..n], noise[..n], passBias, biases)
        + [Applied(useType, multiplier, s, xs[n], noise[n], BiasAt(s, passBias, biases, n))]
  }

  /** The loop of ApplyBiasAndNoise over the values and corrections. */
  method ApplyAll(useType: string, multiplier: real, s: ErrorSettings, corrections: seq<real>, values: seq<real>,
                  noise: seq<real>, passBias: real, biases: seq<real>)
    returns (newValues: seq<real>, newCorrections: seq<real>)
    requires |corrections| == |values| == |noise|
    requires BiasesCover(useType, s, biases, |values|)
    ensures newValues == AppliedAll(useType, multiplier, s, values, noise, passBias, biases)
    ensures newCorrections == AppliedAll(useType, multiplier, s, corrections, noise, passBias, biases)
  {
    newValues, newCorrections := [], [];
    var i := 0;
    while i < |values|
      invariant 0 <= i <= |values|
      invariant newValues == AppliedAll(useType, multiplier, s, values[..i], noise[..i], passBias, biases)
      invariant newCorrections == AppliedAll(useType, multiplier, s, corrections[..i], noise[..i], passBias, biases)
    {
      assert values[..i + 1][..i] == values[..i];
      assert corrections[..i + 1][..i] == corrections[..i];
      assert noise[..i + 1][..i] == noise[..i];
      var measVal := values[i];
      var corrVal := corrections[i];
      if useType == RangeType {
        measVal := measVal * multiplier;
        corrVal := corrVal * multiplier;
        if !s.rangeOnly {
          if s.addNoise {
            measVal := measVal + noise[i];
            corrVal := corrVal + noise[i];
          }
          if s.addBias {
            var bias := if s.usePassBias then passBias else biases[i];
            measVal := measVal + bias;
            corrVal := corrVal + bias;
          }
        }
      }
      assert measVal == Applied(useType, multiplier, s, values[i], noise[i], BiasAt(s, passBias, biases, i));
      assert corrVal == Applied(useType, multiplier, s, corrections[i], noise[i], BiasAt(s, passBias, biases, i));
      newValues := newValues + [measVal];
      newCorrections := newCorrections + [corrVal];
      assert newValues == AppliedAll(useType, multiplier, s, values[..i + 1], noise[..i + 1], passBias, biases);
      assert newCorrections == AppliedAll(useType, multiplier, s, corrections[..i + 1], noise[..i + 1], passBias, biases);
      i := i + 1;
    }
    assert values[..i] == values && corrections[..i] == corrections && noise[..i] == noise;
  }

  // ---------------------------------------------------------------------
  // Derivatives
  // ---------------------------------------------------------------------

  /** The factor of a derivative: the multiplier for a spacecraft parameter
      of a BRTS range measurement, 1 otherwise. */
  function DerivativeFactor(measurementType: string, ofSpacecraft: bool, multiplier: real): real
  {
    if measurementType == RangeType && ofSpacecraft then multiplier else 1.0
  }

  /** Every row has the length of the first. */
  predicate Rectangular(data: seq<seq<real>>)
  {
    |data| > 0 && forall i :: 0 <= i < |data| ==> |data[i]| == |data[0]|
  }

  /** Copies a derivative table row by row, scaled by factor; a row whose
      length differs from the first row's is an error. */
  method ScaleDerivatives(data: seq<seq<real>>, factor: real) returns (r: Result<seq<seq<real>>>)
    ensures r.Ok? <==> Rectangular(data)
    ensures r.Ok? ==> |r.value| == |data|
    ensures r.Ok? ==> forall i :: 0 <= i < |data| ==> |r.value[i]| == |data[i]|
    ensures r.Ok? ==> forall i, j :: 0 <= i < |data| && 0 <= j < |data[i]| ==> r.value[i][j] == data[i][j] * factor
    ensures r.Err? ==> r.msg == if |data| == 0 then RangeCheckError else DerivativeSizeError
  {
    if |data| == 0 {
      return Err(RangeCheckError);
    }
    var size := |data[0]|;
    var rows: seq<seq<real>> := [];
    var i := 0;
    while i < |data|
      invariant 0 <= i <= |data|
      invariant |rows| == i
      invariant forall k :: 0 <= k < i ==> |data[k]| == size && |rows[k]| == size
      invariant forall k, j :: 0 <= k < i && 0 <= j < size ==> rows[k][j] == data[k][j] * factor
    {
      if |data[i]| != size {
        return Err(DerivativeSizeError);
      }
      var row: seq<real> := [];
      var j := 0;
      while j < size
        invariant 0 <= j <= size
        invariant |row| == j
        invariant forall m :: 0 <= m < j ==> row[m] == data[i][m] * factor
      {
        row := row + [data[i][j] * factor];
        j := j + 1;
      }
      rows := rows + [row];
      i := i + 1;
    }
    return Ok(rows);
  }

  /** A table of zeros: one row of the given size. */
  function ZeroRow(size: nat): (r: seq<seq<real>>)
    ensures |r| == 1 && |r[0]| == size
    ensures forall j :: 0 <= j < size ==> r[0][j] == 0.0
  {
    [seq(size, _ => 0.0)]
  }

  /** What a derivative request supplies: the parameter's name, the type of
      the error model it belongs to (for biases), how many of the
      measurement's participants the object's name contains, the
      parameter's size, whether the object is a spacecraft, and the
      derivatives the measurement model computes. */
  datatype DerivativeRequest = DerivativeRequest(
    paramName: string,
    errorModelType: string,
    participantMatches: nat,
    parameterSize: nat,
    ofSpacecraft: bool,
    modelDerivatives: seq<seq<real>>)

  /** The measurement record the adapter fills. */
  datatype MeasurementData = MeasurementData(
    value: seq<real>,
    correction: seq<real>,
    isFeasible: bool,
    unfeasibleReason: string,
    feasibilityValue: real,
    epoch: real)

  /** The record once the model has produced signal data for the paths: the
      feasibility the legs decide, the epoch the first path tags, and the
      C-values and corrections after ApplyBiasAndNoise. */
  function Computed(paths: seq<seq<Leg>>, atReceiver: bool, measurementType: string, multiplier: real,
                    s: ErrorSettings, noise: seq<real>, passBias: real, biases: seq<real>,
                    previous: MeasurementData): MeasurementData
    requires |noise| == |paths|
  {
    var f := PathsFeasibility(Unset, paths, |paths|);
    MeasurementData(
      AppliedAll(measurementType, multiplier, s, PathValues(paths), noise, passBias, biases),
      AppliedAll(measurementType, multiplier, s, PathCorrections(paths), noise, passBias, biases),
      f.isFeasible, f.reason, f.value,
      PathsEpoch(paths, atReceiver, previous.epoch))
  }

  /** The record after the epoch checks: it is computed only when the epoch
      passed the first check and the model produced data, and an epoch that
      fails either check marks it infeasible with reason "EGAP". */
  function Checked(epochValid: bool, calculated: bool, epochStillValid: bool,
                   computed: MeasurementData, previous: MeasurementData): MeasurementData
  {
    var m := if epochValid && calculated then computed else previous;
    if epochValid && epochStillValid then m else m.(isFeasible := false, unfeasibleReason := "EGAP")
  }

  /** The biases and sigmas the adapter holds after ComputeBiasAndNoise. */
  function TakenBiases(measurementType: string, current: seq<real>, supplied: seq<real>): seq<real>
  {
    if measurementType == RangeType then supplied else current
  }

  /** Walks the paths and applies multiplier, noise and bias. */
  method Measure(paths: seq<seq<Leg>>, atReceiver: bool, measurementType: string, multiplier: real, s: ErrorSettings,
                 noise: seq<real>, passBias: real, biases: seq<real>, previous: MeasurementData)
    returns (m: MeasurementData)
    requires |noise| == |paths|
    requires BiasesCover(measurementType, s, biases, |paths|)
    ensures m == Computed(paths, atReceiver, measurementType, multiplier, s, noise, passBias, biases, previous)
  {
    var values, corrections, f, e := WalkPaths(paths, atReceiver, previous.epoch);
    var v, c := ApplyAll(measurementType, multiplier, s, corrections, values, noise, passBias, biases);
    m := MeasurementData(v, c, f.isFeasible, f.reason, f.value, e);
  }

  /** The i-th entry of AppliedAll. */
  lemma {:induction false} AppliedAllAt(useType: string, multiplier: real, s: ErrorSettings, xs: seq<real>,
                                        noise: seq<real>, passBias: real, biases: seq<real>, i: nat)
    requires |noise| == |xs| && i < |xs|
    ensures AppliedAll(useType, multiplier, s, xs, noise, passBias, biases)[i]
            == Applied(useType, multiplier, s, xs[i], noise[i], BiasAt(s, passBias, biases, i))
  {
    var n := |xs| - 1;
    if i < n {
      AppliedAllAt(useType, multiplier, s, xs[..n], noise[..n], passBias, biases, i);
    }
  }

  /** The i-th entry of PathValues and PathCorrections. */
  lemma {:induction false} PathValuesAt(paths: seq<seq<Leg>>, i: nat)
    requires i < |paths|
    ensures PathValues(paths)[i] == PathValue(paths[i], |paths[i]|)
    ensures PathCorrections(paths)[i] == PathCorrection(paths[i], |paths[i]|)
  {
    var n := |paths| - 1;
    if i < n {
      PathValuesAt(paths[..n], i);
    }
  }

  /** At every index, the scaled value exceeds the scaled correction by
      the multiplier times their difference before scaling. */
  lemma AppliedAllKeepsRange(multiplier: real, s: ErrorSettings, vs: seq<real>, cs: seq<real>,
                             noise: seq<real>, passBias: real, biases: seq<real>, i: nat)
    requires |vs| == |cs| == |noise| && i < |vs|
    ensures AppliedAll(RangeType, multiplier, s, vs, noise, passBias, biases)[i]
            - AppliedAll(RangeType, multiplier, s, cs, noise, passBias, biases)[i] == (vs[i] - cs[i]) * multiplier
  {
    AppliedAllAt(RangeType, multiplier, s, vs, noise, passBias, biases, i);
    AppliedAllAt(RangeType, multiplier, s, cs, noise, passBias, biases, i);
    AppliedKeepsRange(RangeType, multiplier, s, vs[i], cs[i], noise[i], BiasAt(s, passBias, biases, i));
  }

  /** The C-value of each path exceeds its correction by the path's
      geometric range. */
  lemma PathValuesExceedCorrections(paths: seq<seq<Leg>>, i: nat)
    requires i < |paths|
    ensures PathValues(paths)[i] - PathCorrections(paths)[i] == PathRange(paths[i], |paths[i]|)
  {
    PathValuesAt(paths, i);
    ValueIsRangePlusCorrection(paths[i], |paths[i]|);
  }

  class BRTSRangeAdapter {
    var instanceName: string
    var typeName: string
    var measurementType: string
    var multiplier: real
    var rangeOnly: bool
    var addNoise: bool
    var addBias: bool
    var usePassBias: bool
    var measurementBias: seq<real>
    var noiseSigma: seq<real>
    /** Whether the measurement model the adapter reads has been set. */
    var hasCalcData: bool
    /** The computed measurement. */
    var cMeasurement: MeasurementData

    constructor (name: string, measType: string)
      ensures instanceName == name && typeName == RangeType && measurementType == measType
      ensures multiplier == 1.0 && !rangeOnly && !addNoise && !addBias && !usePassBias && !hasCalcData
      ensures measurementBias == [] && noiseSigma == []
      ensures cMeasurement == MeasurementData([], [], false, "", 90.0, 0.0)
    {
      instanceName, typeName, measurementType := name, RangeType, measType;
      multiplier, rangeOnly, addNoise, addBias, usePassBias, hasCalcData := 1.0, false, false, false, false, false;
      measurementBias, noiseSigma := [], [];
      cMeasurement := MeasurementData([], [], false, "", 90.0, 0.0);
    }

    function Settings(): ErrorSettings
      reads this
    {
      ErrorSettings(rangeOnly, addNoise, addBias, usePassBias)
    }

    /** Takes the error model's biases and noise sigmas, for a BRTS range
        measurement only. */
    method ComputeBiasAndNoise(useType: string, biases: seq<real>, sigmas: seq<real>)
      modifies this
      ensures measurementBias == TakenBiases(useType, old(measurementBias), biases)
      ensures noiseSigma == TakenBiases(useType, old(noiseSigma), sigmas)
      ensures instanceName == old(instanceName) && typeName == old(typeName) && measurementType == old(measurementType)
      ensures multiplier == old(multiplier) && Settings() == old(Settings()) && hasCalcData == old(hasCalcData)
      ensures cMeasurement == old(cMeasurement)
    {
      if useType == RangeType {
        measurementBias := biases;
        noiseSigma := sigmas;
      }
    }

    /** Writes the scaled, perturbed values and corrections. */
    method ApplyBiasAndNoise(useType: string, corrections: seq<real>, values: seq<real>, noise: seq<real>, passBias: real)
      requires |corrections| == |values| == |noise|
      requires BiasesCover(useType, Settings(), measurementBias, |values|)
      modifies this
      ensures cMeasurement == old(cMeasurement).(
        value := AppliedAll(useType, multiplier, Settings(), values, noise, passBias, measurementBias),
        correction := AppliedAll(useType, multiplier, Settings(), corrections, noise, passBias, measurementBias))
      ensures instanceName == old(instanceName) && typeName == old(typeName) && measurementType == old(measurementType)
      ensures multiplier == old(multiplier) && Settings() == old(Settings()) && hasCalcData == old(hasCalcData)
      ensures measurementBias == old(measurementBias) && noiseSigma == old(noiseSigma)
    {
      var v, c := ApplyAll(useType, multiplier, Settings(), corrections, values, noise, passBias, measurementBias);
      cMeasurement := cMeasurement.(value := v, correction := c);
    }

    /** Computes the measurement. epochValid is the check of the epoch
        against the ephemerides before the model runs, calculated whether the
        model produced signal data, epochStillValid the check after it;
        paths are the legs of every signal path, biases and sigmas what the
        error model supplies and noise the Gaussian draws, one per path. */
    method CalculateMeasurement(epochValid: bool, calculated: bool, epochStillValid: bool,
                                paths: seq<seq<Leg>>, atReceiver: bool,
                                biases: seq<real>, sigmas: seq<real>, noise: seq<real>, passBias: real)
      returns (r: Outcome)
      requires |noise| == |paths|
      requires BiasesCover(measurementType, Settings(), biases, |paths|)
      modifies this
      ensures !old(hasCalcData) ==> r == Fail(NotSetError(instanceName)) && unchanged(this)
      ensures old(hasCalcData) ==> r == Pass
      ensures old(hasCalcData) ==>
        var taken := TakenBiases(measurementType, old(measurementBias), biases);
        var computed := Computed(paths, atReceiver, measurementType, multiplier, Settings(), noise, passBias, taken, old(cMeasurement));
        cMeasurement == Checked(epochValid, calculated, epochStillValid, computed, old(cMeasurement))
      ensures old(hasCalcData) && epochValid && calculated ==>
        measurementBias == TakenBiases(measurementType, old(measurementBias), biases)
        && noiseSigma == TakenBiases(measurementType, old(noiseSigma), sigmas)
      ensures !(epochValid && calculated) ==> measurementBias == old(measurementBias) && noiseSigma == old(noiseSigma)
      ensures instanceName == old(instanceName) && typeName == old(typeName) && measurementType == old(measurementType)
      ensures multiplier == old(multiplier) && Settings() == old(Settings()) && hasCalcData == old(hasCalcData)
    {
      if !hasCalcData {
        return Fail(NotSetError(instanceName));
      }
      var m := cMeasurement;
      if epochValid && calculated {
        ComputeBiasAndNoise(measurementType, biases, sigmas);
        m := Measure(paths, atReceiver, measurementType, multiplier, Settings(), noise, passBias, measurementBias, cMeasurement);
      }
      if !(epochValid && epochStillValid) {
        m := m.(isFeasible := false, unfeasibleReason := "EGAP");
      }
      cMeasurement := m;
      return Pass;
    }

    /** The derivatives of the measurement with respect to a parameter. A
        bias of a BRTS range error model shared by more than one participant,
        and a pass bias of such a model, take the model's derivatives; any
        other bias a row of zeros; every other parameter the model's
        derivatives scaled by DerivativeFactor. */
    method CalculateMeasurementDerivatives(req: DerivativeRequest) returns (r: Result<seq<seq<real>>>)
      ensures !hasCalcData ==> r == Err(DerivativesNotSetError(instanceName))
      ensures hasCalcData && req.paramName == "Bias" ==>
        r == Ok(if req.errorModelType == RangeType && req.participantMatches > 1 then req.modelDerivatives else ZeroRow(req.parameterSize))
      ensures hasCalcData && req.paramName == "PassBiases" ==>
        r == Ok(if req.errorModelType == RangeType then req.modelDerivatives else ZeroRow(req.parameterSize))
      ensures hasCalcData && req.paramName != "Bias" && req.paramName != "PassBiases" ==>
        && (r.Ok? <==> Rectangular(req.modelDerivatives))
        && (r.Ok? ==> (|r.value| == |req.modelDerivatives|
            && forall i, j :: 0 <= i < |req.modelDerivatives| && 0 <= j < |req.modelDerivatives[i]| ==>
                 |r.value[i]| == |req.modelDerivatives[i]|
                 && r.value[i][j] == req.modelDerivatives[i][j] * DerivativeFactor(measurementType, req.ofSpacecraft, multiplier)))
    {
      if !hasCalcData {
        return Err(DerivativesNotSetError(instanceName));
      }
      if req.paramName == "Bias" {
        if req.errorModelType == RangeType && req.participantMatches > 1 {
          return Ok(req.modelDerivatives);
        }
        return Ok(ZeroRow(req.parameterSize));
      } else if req.paramName == "PassBiases" {
        if req.errorModelType == RangeType {
          return Ok(req.modelDerivatives);
        }
        return Ok(ZeroRow(req.parameterSize));
      }
      var factor := 1.0;
      if measurementType == RangeType {
        if req.ofSpacecraft {
          factor := multiplier;
        }
      }
      r := ScaleDerivatives(req.modelDerivatives, factor);
    }
  }
}
