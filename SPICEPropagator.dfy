/** The SPICE-based two-line-element propagator
    (plugins/TLEPropagatorPlugin/src/propagator/SPICEPropagator.cpp): the
    checks a TLE must pass before it is used, the checksum warning, the
    epoch the spacecraft takes from its TLE, the 32-value input buffer
    handed to SPICE's spke10, the parameter access rules and the epoch
    arithmetic of a step. The SPICE evaluation itself, the TLE file reader
    and the time-system conversions are inputs. */
module SPICEPropagatorModel {
  import opened Common

  /** Length in characters of each TLE data line. */
  const TleLineLength: nat := 69
  /** Seconds per day. */
  const SecondsPerDay: real := 86400.0
  /** The TT epoch of a spacecraft whose epoch was never set. */
  const UnsetSatelliteEpoch: real := 21545.000372499999
  /** The propagator's epoch before its first initialization. */
  const UnsetPropagatorEpoch: real := -987654321.0

  // ---------------------------------------------------------------------
  // Messages

  const SubstrRangeMessage: string := "basic_string::substr: position out of range"
  const LengthMessage: string := "The two data lines must each be exactly 69 characters in length"
  const SpiceFailureMessage: string := "Error: SPICE encountered an problem propagating the TLE"
  const EpochMismatchMessage: string := "Spacecraft epochs need to match for the TLE Propagators"
  const CentralBodyMessage: string := "Spacecraft must have a central body of Earth for use with the TLE Propagators"
  const NotRealMessage: string := "is not a real number parameter accessible by the user"

  function FileMissingMessage(source: string): string
  {
    "The 2-line element file \"" + source + "\" could not be found."
  }

  function IdNotSetMessage(satName: string): string
  {
    "The spacecraft ID used for the  TLE identifier for spacecraft \"" + satName + "\" is not set"
  }

  function IdNotFoundMessage(id: string, source: string): string
  {
    "The spacecraft ID \"" + id + "\" was not found in the TLE file \"" + source + "\""
  }

  function RangeMessage(field: string): string
  {
    "The " + field + " in a TLE is out of range"
  }

  // ---------------------------------------------------------------------
  // Field checks on the second data line

  /** The value a string-to-real conversion of the count characters of
      line from start leaves behind: realOf(line, start, count) is what the
      conversion makes of them, and it writes its target only on success. */
  function ReadOr(prev: real, line: string, start: nat, count: nat,
                 realOf: (string, nat, nat) -> Option<real>): real
  {
    match realOf(line, start, count)
    case Some(v) => v
    case None => prev
  }

  /** The six values the range checks read from line 2, each conversion
      falling back to the previous value when it fails. */
  datatype TleFields = TleFields(inclination: real, raan: real, eccentricity: real,
                                 argumentOfPerigee: real, meanAnomaly: real, meanMotion: real)

  function ReadFields(line2: string, realOf: (string, nat, nat) -> Option<real>, garbage: real): TleFields
    requires |line2| == TleLineLength
  {
    var inc := ReadOr(garbage, line2, 8, 8, realOf);
    var raan := ReadOr(inc, line2, 17, 8, realOf);
    var ecc := ReadOr(raan, line2, 26, 8, realOf);
    var aop := ReadOr(ecc, line2, 34, 8, realOf);
    var ma := ReadOr(aop, line2, 43, 8, realOf);
    var mm := ReadOr(ma, line2, 52, 11, realOf);
    TleFields(inc, raan, ecc, aop, ma, mm)
  }

  /** The documented ranges; the eccentricity field carries seven digits
      with an implied leading decimal point. */
  predicate FieldsInRange(f: TleFields)
  {
    && 0.0 <= f.inclination < 180.0
    && 0.0 <= f.raan < 360.0
    && 0.0 <= f.eccentricity < 9999999.0
    && 0.0 <= f.argumentOfPerigee < 360.0
    && 0.0 <= f.meanAnomaly < 360.0
    && 0.0 <= f.meanMotion < 99.0
  }

  /** The checks in the order GMAT makes them: the inclination
      field is cut out of line 2 before the lengths are checked (a line 2
      shorter than 8 characters makes that cut throw), then both lines
      must have 69 characters, then each field in turn must lie in its
      range. `garbage` is the uninitialized value the inclination check
      sees when its conversion fails. */
  function TleFieldCheck(line1: string, line2: string, realOf: (string, nat, nat) -> Option<real>,
                         garbage: real): (r: Outcome)
    ensures r.Pass? <==> |line1| == TleLineLength && |line2| == TleLineLength &&
                         FieldsInRange(ReadFields(line2, realOf, garbage))
    ensures |line2| < 8 ==> r == Fail(SubstrRangeMessage)
    ensures |line2| >= 8 && (|line1| != TleLineLength || |line2| != TleLineLength) ==>
              r == Fail(LengthMessage)
  {
    if |line2| < 8 then Fail(SubstrRangeMessage)
    else if |line1| != TleLineLength || |line2| != TleLineLength then Fail(LengthMessage)
    else
      var f := ReadFields(line2, realOf, garbage);
      if !(0.0 <= f.inclination < 180.0) then Fail(RangeMessage("Inclination"))
      else if !(0.0 <= f.raan < 360.0) then Fail(RangeMessage("RAAN"))
      else if !(0.0 <= f.eccentricity < 9999999.0) then Fail(RangeMessage("Eccentricity"))
      else if !(0.0 <= f.argumentOfPerigee < 360.0) then Fail(RangeMessage("AOP"))
      else if !(0.0 <= f.meanAnomaly < 360.0) then Fail(RangeMessage("MA"))
      else if !(0.0 <= f.meanMotion < 99.0) then Fail(RangeMessage("mean motion"))
      else Pass
  }

  /** When every field of line 2 converts, a TLE that passes has each
      field, as written in its columns, inside its range; and a field out
      of range makes the check fail whatever the other fields hold. */
  lemma ParsedFieldsInRange(line1: string, line2: string, realOf: (string, nat, nat) -> Option<real>,
                            garbage: real)
    requires |line1| == TleLineLength && |line2| == TleLineLength
    requires realOf(line2, 8, 8).Some? && realOf(line2, 17, 8).Some?
    requires realOf(line2, 26, 8).Some? && realOf(line2, 34, 8).Some?
    requires realOf(line2, 43, 8).Some? && realOf(line2, 52, 11).Some?
    ensures TleFieldCheck(line1, line2, realOf, garbage).Pass? <==>
              && 0.0 <= realOf(line2, 8, 8).value < 180.0
              && 0.0 <= realOf(line2, 17, 8).value < 360.0
              && 0.0 <= realOf(line2, 26, 8).value < 9999999.0
              && 0.0 <= realOf(line2, 34, 8).value < 360.0
              && 0.0 <= realOf(line2, 43, 8).value < 360.0
              && 0.0 <= realOf(line2, 52, 11).value < 99.0
  {
  }

  /** A field that does not convert is checked with the value of the field
      before it: an unreadable RAAN passes whenever the inclination would. */
  lemma UnreadableFieldReusesPrevious(line2: string, realOf: (string, nat, nat) -> Option<real>, garbage: real)
    requires |line2| == TleLineLength
    requires realOf(line2, 8, 8) == Some(10.0) && realOf(line2, 17, 8).None?
    ensures ReadFields(line2, realOf, garbage).raan == 10.0
  {
  }

  // ---------------------------------------------------------------------
  // Checksum

  /** The value a one-character conversion yields: the digit itself, or
      nothing for any other character. */
  function DigitOf(c: char): Option<nat>
  {
    if '0' <= c <= '9' then Some(c as int - '0' as int) else None
  }

  /** What one character adds to the checksum: its digit value, plus one
      for a minus sign. */
  function CharWeight(c: char): (w: nat)
    ensures w <= 9
    ensures c == '-' ==> w == 1
    ensures DigitOf(c).Some? ==> w == DigitOf(c).value
  {
    (if DigitOf(c).Some? then DigitOf(c).value else 0) + (if c == '-' then 1 else 0)
  }

  /** The weights of a string added up from the left. */
  function WeightSum(s: string): nat
  {
    if s == [] then 0 else WeightSum(s[..|s| - 1]) + CharWeight(s[|s| - 1])
  }

  /** The checksum a line should carry: the weights of every character but
      the last, modulo ten. */
  function Checksum(line: string): (d: nat)
    requires |line| >= 1
    ensures d < 10
  {
    WeightSum(line[..|line| - 1]) % 10
  }

  /** The checksum a 69-character line states in its last column. When that
      column is not a digit the conversion leaves the value of the
      previous one-character conversion, that of column 68 (0 when that
      is not a digit either). */
  function StatedChecksum(line: string): real
    requires |line| == TleLineLength
  {
    match DigitOf(line[68])
    case Some(d) => d as real
    case None => if DigitOf(line[67]).Some? then DigitOf(line[67]).value as real else 0.0
  }

  /** A line whose stated checksum differs from the computed one draws a
      warning; nothing else happens. */
  predicate ChecksumWarns(line: string)
    requires |line| == TleLineLength
  {
    Checksum(line) as real != StatedChecksum(line)
  }

  /** The numbers (1, 2) of the data lines that draw a checksum warning. */
  function ChecksumWarnings(line1: string, line2: string): seq<nat>
    requires |line1| == TleLineLength && |line2| == TleLineLength
  {
    (if ChecksumWarns(line1) then [1] else []) + (if ChecksumWarns(line2) then [2] else [])
  }

  /** The accumulator loop over every character of a line but the last. */
  method ChecksumSum(line: string) returns (sum: nat)
    requires |line| >= 1
    ensures sum == WeightSum(line[..|line| - 1])
    ensures sum % 10 == Checksum(line)
  {
    sum := 0;
    var i := 0;
    while i < |line| - 1
      invariant 0 <= i <= |line| - 1
      invariant sum == WeightSum(line[..i])
    {
      assert line[..i + 1][..i] == line[..i];
      sum := sum + CharWeight(line[i]);
      i := i + 1;
    }
  }

  /** The checksum loop over the two data lines, warning for each line
      whose stated checksum is wrong. */
  method CheckChecksums(line1: string, line2: string) returns (warnings: seq<nat>)
    requires |line1| == TleLineLength && |line2| == TleLineLength
    ensures warnings == ChecksumWarnings(line1, line2)
  {
    var lines := ["", line1, line2];
    warnings := [];
    var line := 1;
    while line < 3
      invariant 1 <= line <= 3
      invariant warnings == (if line > 1 && ChecksumWarns(line1) then [1] else []) +
                            (if line > 2 && ChecksumWarns(line2) then [2] else [])
    {
      var sum := ChecksumSum(lines[line]);
      if (sum % 10) as real != StatedChecksum(lines[line]) {
        warnings := warnings + [line];
      }
      line := line + 1;
    }
  }

  /** Changing one character changes the weight sum by the difference of
      the two weights. */
  lemma {:induction false} WeightSumChangeOne(s: string, t: string, k: nat)
    requires |s| == |t| && k < |s|
    requires forall j :: 0 <= j < |s| && j != k ==> s[j] == t[j]
    ensures WeightSum(t) == WeightSum(s) - CharWeight(s[k]) + CharWeight(t[k])
  {
    var n := |s| - 1;
    if k == n {
      assert s[..n] == t[..n];
    } else {
      WeightSumChangeOne(s[..n], t[..n], k);
    }
  }

  /** The checksum catches any single-character change of weight, in
      particular a single mistyped digit; a '-' and a '1' weigh the same. */
  lemma ChecksumDetectsSingleChange(s: string, t: string, k: nat)
    requires |s| == |t| == TleLineLength && k < TleLineLength - 1
    requires forall j :: 0 <= j < |s| && j != k ==> s[j] == t[j]
    requires CharWeight(s[k]) != CharWeight(t[k])
    ensures Checksum(s) != Checksum(t)
  {
    var n := |s| - 1;
    WeightSumChangeOne(s[..n], t[..n], k);
  }

  /** A line that ends in the digit of its own checksum draws no warning. */
  lemma CorrectChecksumDoesNotWarn(line: string)
    requires |line| == TleLineLength
    requires DigitOf(line[68]) == Some(Checksum(line))
    ensures !ChecksumWarns(line)
  {
  }

  // ---------------------------------------------------------------------
  // Epoch and the SPICE input buffer

  /** The epoch the spacecraft is propagated from: its own, or the TLE's
      when it has none. */
  function SatelliteTime(toTime: real, tleEpoch: real): real
  {
    if toTime == UnsetSatelliteEpoch then tleEpoch else toTime
  }

  /** Seconds from the TLE epoch to the spacecraft epoch. */
  function TimeOffset(toTime: real, tleEpoch: real): (r: real)
    ensures toTime == UnsetSatelliteEpoch ==> r == 0.0
  {
    (SatelliteTime(toTime, tleEpoch) - tleEpoch) * SecondsPerDay
  }

  /** The offset carries the TLE epoch onto the spacecraft epoch, and an
      epoch-less spacecraft starts exactly at the TLE epoch. */
  lemma TimeOffsetReachesSatelliteTime(toTime: real, tleEpoch: real)
    ensures tleEpoch + TimeOffset(toTime, tleEpoch) / SecondsPerDay == SatelliteTime(toTime, tleEpoch)
    ensures toTime != UnsetSatelliteEpoch ==> SatelliteTime(toTime, tleEpoch) == toTime
  {
  }

  /** The 32 values spke10 reads: the eight geophysical constants, the ten
      elements twice, then the tenth element four times. */
  function InputsLayout(params: seq<real>, elements: seq<real>): (r: seq<real>)
    requires |params| == 8 && |elements| == 10
    ensures |r| == 32
    ensures forall j :: 0 <= j < 8 ==> r[j] == params[j]
    ensures forall j :: 8 <= j < 18 ==> r[j] == elements[j - 8]
    ensures forall j :: 18 <= j < 28 ==> r[j] == elements[j - 18]
    ensures forall j :: 28 <= j < 32 ==> r[j] == elements[9]
  {
    params + elements + elements + [elements[9], elements[9], elements[9], elements[9]]
  }

  /** Two layouts agree exactly when their constants and elements agree. */
  lemma InputsLayoutInjective(p: seq<real>, e: seq<real>, q: seq<real>, f: seq<real>)
    requires |p| == 8 && |e| == 10 && |q| == 8 && |f| == 10
    ensures InputsLayout(p, e) == InputsLayout(q, f) <==> p == q && e == f
  {
    if InputsLayout(p, e) == InputsLayout(q, f) {
      assert p == InputsLayout(p, e)[..8];
      assert q == InputsLayout(q, f)[..8];
      assert e == InputsLayout(p, e)[8..18];
      assert f == InputsLayout(q, f)[8..18];
    }
  }

  /** The buffer-filling loop, in place. */
  method FillInputs(inputs: array<real>, params: seq<real>, elements: seq<real>)
    requires inputs.Length == 32 && |params| == 8 && |elements| == 10
    modifies inputs
    ensures inputs[..] == InputsLayout(params, elements)
  {
    ghost var layout := InputsLayout(params, elements);
    var ill := 0;
    while ill < 32
      invariant 0 <= ill <= 32
      invariant inputs[..ill] == layout[..ill]
    {
      if ill < 8 {
        inputs[ill] := params[ill];
      } else if ill < 18 {
        inputs[ill] := elements[ill - 8];
      } else if ill < 28 {
        inputs[ill] := elements[ill - 18];
      } else {
        inputs[ill] := elements[9];
      }
      assert inputs[..ill + 1] == inputs[..ill] + [inputs[ill]];
      ill := ill + 1;
    }
    assert inputs[..] == inputs[..32];
  }

  // ---------------------------------------------------------------------
  // One spacecraft's TLE

  /** What the TLE reader found for a spacecraft: whether the file exists,
      the name line and the two data lines ("" when the id is absent), the
      ten elements parsed for SPICE, the TLE epoch in seconds from J2000
      and as an A.1 modified Julian date. */
  datatype TleSource = TleSource(satName: string, ephemerisName: string, id: string,
                                 fileExists: bool, tleLines: seq<string>,
                                 elements: seq<real>, secFromJ2k: real, tleEpoch: real)

  predicate SourceShaped(s: TleSource)
  {
    |s.tleLines| == 3 && |s.elements| == 10
  }

  /** The per-spacecraft record the propagator keeps (copied by value). */
  datatype TleObject = TleObject(satName: string, tleName: string, elements: seq<real>,
                                 a1epoch: real, timeOffset: real, inputs: seq<real>)

  predicate ObjectShaped(o: TleObject)
  {
    |o.elements| == 10 && |o.inputs| == 32
  }

  /** A successful set-up: the record, the epoch the spacecraft is moved
      to when it had none, the data lines that drew a checksum warning and
      the initial state SPICE produced. */
  datatype TleStart = TleStart(obj: TleObject, newSatEpoch: Option<real>,
                               warnings: seq<nat>, state: seq<real>)

  /** Everything checked before SPICE is called, in order. */
  function TlePreflight(s: TleSource, realOf: (string, nat, nat) -> Option<real>, garbage: real): (r: Outcome)
    requires SourceShaped(s)
    ensures r.Pass? <==> TleChecksPass(s, realOf, garbage)
  {
    if !s.fileExists then Fail(FileMissingMessage(s.ephemerisName))
    else if s.id == "" then Fail(IdNotSetMessage(s.satName))
    else if s.tleLines[1] == "" then Fail(IdNotFoundMessage(s.id, s.ephemerisName))
    else TleFieldCheck(s.tleLines[1], s.tleLines[2], realOf, garbage)
  }

  /** Every check of the set-up passes: the ephemeris file exists, the
      spacecraft has an id, the file holds a TLE for it, and both lines
      have the TLE length with every field of line 2 in range. */
  predicate TleChecksPass(s: TleSource, realOf: (string, nat, nat) -> Option<real>, garbage: real)
    requires SourceShaped(s)
  {
    && s.fileExists && s.id != "" && s.tleLines[1] != ""
    && |s.tleLines[1]| == TleLineLength && |s.tleLines[2]| == TleLineLength
    && FieldsInRange(ReadFields(s.tleLines[2], realOf, garbage))
  }

  /** The record a successful set-up builds. */
  function ExpectedObject(s: TleSource, toTime: real, params: seq<real>): (o: TleObject)
    requires SourceShaped(s) && |params| == 8
    ensures ObjectShaped(o)
  {
    TleObject(s.satName, s.id, s.elements, s.tleEpoch, TimeOffset(toTime, s.tleEpoch),
              InputsLayout(params, s.elements))
  }

  /** The epoch a spacecraft has after its TLE is set up: the TLE epoch
      when the (first spacecraft's) epoch was unset, its own otherwise. */
  function EpochAfterSetUp(satEpoch: real, toTime: real, tleEpoch: real): real
  {
    if toTime == UnsetSatelliteEpoch then tleEpoch else satEpoch
  }

  /** A TLE is accepted when it passes every check and SPICE can evaluate
      it at the spacecraft epoch. */
  predicate TleAccepted(s: TleSource, toTime: real, params: seq<real>, garbage: real,
                        realOf: (string, nat, nat) -> Option<real>,
                        spke10: (real, seq<real>) -> Option<seq<real>>)
    requires SourceShaped(s) && |params| == 8
  {
    && TleChecksPass(s, realOf, garbage)
    && spke10(s.secFromJ2k + TimeOffset(toTime, s.tleEpoch), InputsLayout(params, s.elements)).Some?
  }

  /** What setting up one spacecraft's TLE yields: the first failed check's
      message, SPICE's failure, or the record, the epoch the spacecraft
      moves to, the checksum warnings and the initial state. */
  function ExpectedTle(s: TleSource, toTime: real, params: seq<real>, garbage: real,
                       realOf: (string, nat, nat) -> Option<real>,
                       spke10: (real, seq<real>) -> Option<seq<real>>): (r: Result<TleStart>)
    requires SourceShaped(s) && |params| == 8
    ensures r.Ok? ==> TlePreflight(s, realOf, garbage).Pass? &&
                      r.value.obj == ExpectedObject(s, toTime, params) &&
                      r.value.newSatEpoch == (if toTime == UnsetSatelliteEpoch then Some(s.tleEpoch) else None)
    ensures r.Ok? <==> TleAccepted(s, toTime, params, garbage, realOf, spke10)
    ensures TlePreflight(s, realOf, garbage).Fail? ==> r == Err(TlePreflight(s, realOf, garbage).msg)
  {
    var pre := TlePreflight(s, realOf, garbage);
    if pre.Fail? then Err(pre.msg)
    else
      var o := ExpectedObject(s, toTime, params);
      match spke10(s.secFromJ2k + o.timeOffset, o.inputs)
      case None => Err(SpiceFailureMessage)
      case Some(st) =>
        Ok(TleStart(o, if toTime == UnsetSatelliteEpoch then Some(s.tleEpoch) else None,
                    ChecksumWarnings(s.tleLines[1], s.tleLines[2]), st))
  }

  /** PropObject::Initialize. No spacecraft: nothing is done. Otherwise the
      checks run in order, then the checksums, the epoch and the input
      buffer are set up and SPICE gives the initial state. */
  method InitializeTle(sat: Option<TleSource>, toTime: real, params: seq<real>, garbage: real,
                       realOf: (string, nat, nat) -> Option<real>,
                       spke10: (real, seq<real>) -> Option<seq<real>>)
      returns (res: Result<Option<TleStart>>)
    requires |params| == 8
    requires sat.Some? ==> SourceShaped(sat.value)
    ensures sat.None? ==> res == Ok(None)
    ensures sat.Some? ==>
              var r := ExpectedTle(sat.value, toTime, params, garbage, realOf, spke10);
              (r.Ok? ==> res == Ok(Some(r.value))) && (r.Err? ==> res == Err(r.msg))
  {
    if sat.None? {
      return Ok(None);
    }
    var s := sat.value;
    var pre := TlePreflight(s, realOf, garbage);
    if pre.Fail? {
      return Err(pre.msg);
    }
    var warnings := CheckChecksums(s.tleLines[1], s.tleLines[2]);
    var satTime := toTime;
    var newSatEpoch: Option<real> := None;
    if satTime == UnsetSatelliteEpoch {
      satTime := s.tleEpoch;
      newSatEpoch := Some(s.tleEpoch);
    }
    var timeOffset := (satTime - s.tleEpoch) * SecondsPerDay;
    var buffer := new real[32];
    FillInputs(buffer, params, s.elements);
    var obj := TleObject(s.satName, s.id, s.elements, s.tleEpoch, timeOffset, buffer[..]);
    assert obj == ExpectedObject(s, toTime, params);
    assert warnings == ChecksumWarnings(s.tleLines[1], s.tleLines[2]);
    var st := spke10(s.secFromJ2k + timeOffset, buffer[..]);
    if st.None? {
      assert ExpectedTle(s, toTime, params, garbage, realOf, spke10) == Err(SpiceFailureMessage);
      return Err(SpiceFailureMessage);
    }
    assert ExpectedTle(s, toTime, params, garbage, realOf, spke10) ==
           Ok(TleStart(obj, newSatEpoch, warnings, st.value));
    return Ok(Some(TleStart(obj, newSatEpoch, warnings, st.value)));
  }

  // ---------------------------------------------------------------------
  // Refreshing the buffer and evaluating every spacecraft at a step

  /** Before each step the buffer is rebuilt from the current constants,
      but only when its first entry (J2) differs from the current J2. */
  function Refresh(o: TleObject, params: seq<real>): (r: TleObject)
    requires ObjectShaped(o) && |params| == 8
    ensures ObjectShaped(r)
    ensures r.inputs[0] == params[0]
    ensures r.(inputs := o.inputs) == o
  {
    if o.inputs[0] != params[0] then o.(inputs := InputsLayout(params, o.elements)) else o
  }

  /** A buffer built from the current constants survives a refresh, and a
      refresh is idempotent. */
  lemma RefreshKeepsCurrent(o: TleObject, params: seq<real>)
    requires ObjectShaped(o) && |params| == 8
    ensures o.inputs == InputsLayout(params, o.elements) ==> Refresh(o, params) == o
    ensures Refresh(Refresh(o, params), params) == Refresh(o, params)
  {
  }

  /** A change of J2 rebuilds the whole buffer; a change of the other
      constants alone leaves the buffer as it was. */
  lemma RefreshFollowsJ2(o: TleObject, old_params: seq<real>, params: seq<real>)
    requires ObjectShaped(o) && |old_params| == 8 && |params| == 8
    requires o.inputs == InputsLayout(old_params, o.elements)
    ensures params[0] != old_params[0] ==> Refresh(o, params).inputs == InputsLayout(params, o.elements)
    ensures params[0] == old_params[0] ==> Refresh(o, params).inputs == InputsLayout(old_params, o.elements)
  {
  }

  predicate AllShaped(objs: seq<TleObject>)
  {
    forall i :: 0 <= i < |objs| ==> ObjectShaped(objs[i])
  }

  function RefreshAll(objs: seq<TleObject>, params: seq<real>): (r: seq<TleObject>)
    requires AllShaped(objs) && |params| == 8
    ensures |r| == |objs| && AllShaped(r)
    ensures forall i :: 0 <= i < |objs| ==> r[i] == Refresh(objs[i], params)
  {
    seq(|objs|, i requires 0 <= i < |objs| => Refresh(objs[i], params))
  }

  /** The states SPICE gives every spacecraft at one epoch, concatenated in
      spacecraft order; nothing when any evaluation fails. */
  function Propagated(objs: seq<TleObject>, propEpoch: real,
                      spke10: (real, seq<real>) -> Option<seq<real>>): Option<seq<real>>
  {
    if objs == [] then Some([])
    else
      match Propagated(objs[..|objs| - 1], propEpoch, spke10)
      case None => None
      case Some(front) =>
        match spke10(propEpoch, objs[|objs| - 1].inputs)
        case None => None
        case Some(st) => Some(front + st)
  }

  /** The propagation fails exactly when one spacecraft's evaluation does. */
  lemma {:induction false} PropagatedFailsOnOne(objs: seq<TleObject>, propEpoch: real,
                                                spke10: (real, seq<real>) -> Option<seq<real>>)
    ensures Propagated(objs, propEpoch, spke10).None? <==>
              exists i :: 0 <= i < |objs| && spke10(propEpoch, objs[i].inputs).None?
  {
    if objs != [] {
      var n := |objs| - 1;
      PropagatedFailsOnOne(objs[..n], propEpoch, spke10);
      if Propagated(objs, propEpoch, spke10).None? && Propagated(objs[..n], propEpoch, spke10).None? {
        var i :| 0 <= i < n && spke10(propEpoch, objs[..n][i].inputs).None?;
        assert objs[i] == objs[..n][i];
      }
      if exists i :: 0 <= i < |objs| && spke10(propEpoch, objs[i].inputs).None? {
        var i :| 0 <= i < |objs| && spke10(propEpoch, objs[i].inputs).None?;
        if i < n {
          assert objs[..n][i] == objs[i];
        }
      }
    }
  }

  // ---------------------------------------------------------------------
  // The propagator

  /** The refresh of one record, rebuilding its buffer in place. */
  method RefreshObject(o: TleObject, params: seq<real>) returns (r: TleObject)
    requires ObjectShaped(o) && |params| == 8
    ensures r == Refresh(o, params)
  {
    r := o;
    if o.inputs[0] != params[0] {
      var buffer := new real[32];
      FillInputs(buffer, params, o.elements);
      r := o.(inputs := buffer[..]);
    }
  }

  /** Rebuild the stale buffers and evaluate every spacecraft at one
      epoch, in spacecraft order. On a failed evaluation the buffers
      rebuilt so far, including the failing spacecraft's, are kept. */
  method EvaluateAll(objs: seq<TleObject>, params: seq<real>, propEpoch: real,
                     spke10: (real, seq<real>) -> Option<seq<real>>)
      returns (ok: bool, newObjs: seq<TleObject>, newState: seq<real>)
    requires AllShaped(objs) && |params| == 8
    ensures AllShaped(newObjs) && |newObjs| == |objs|
    ensures var refreshed := RefreshAll(objs, params);
            var out := Propagated(refreshed, propEpoch, spke10);
            (ok <==> out.Some?) && (ok ==> newObjs == refreshed && newState == out.value)
  {
    ghost var refreshed := RefreshAll(objs, params);
    newObjs := [];
    newState := [];
    var i := 0;
    while i < |objs|
      invariant 0 <= i <= |objs|
      invariant newObjs == refreshed[..i]
      invariant Propagated(newObjs, propEpoch, spke10) == Some(newState)
    {
      var o := RefreshObject(objs[i], params);
      var st := spke10(propEpoch, o.inputs);
      assert refreshed[..i + 1] == refreshed[..i] + [o];
      if st.None? {
        PropagatedPrefixFails(refreshed, i + 1, propEpoch, spke10);
        return false, newObjs + [o] + objs[i + 1..], newState;
      }
      newObjs := newObjs + [o];
      newState := newState + st.value;
      i := i + 1;
    }
    assert refreshed[..i] == refreshed;
    return true, newObjs, newState;
  }

  /** Why the set-up loop stopped. */
  datatype SetUpFault = EpochMismatch | CentralBodyNotEarth | TleFailed(msg: string)

  function FaultMessage(f: SetUpFault): string
  {
    match f
    case EpochMismatch => EpochMismatchMessage
    case CentralBodyNotEarth => CentralBodyMessage
    case TleFailed(m) => m
  }

  /** The epochs Initialize keeps. */
  datatype EpochState = EpochState(initialEpoch: real, currentEpoch: real,
                                   timeFromEpoch: real, initialTleEpoch: real)

  /** The set-up loop of Initialize: the first spacecraft fixes the initial
      epoch and the TLE epoch in seconds from J2000 (toTT is the A.1-to-TT
      conversion); every later one is checked against that epoch, though
      the check reads spacecraft 0 as written; each central body must be
      Earth; each TLE is set up, against the first spacecraft's TT epoch;
      and an unset propagator epoch is taken from the spacecraft just set
      up. It stops at the first failure, returning what it had built. */
  method SetUpSpacecraft(sats: seq<SatInput>, ep0: EpochState, params: seq<real>,
                         toTT: real -> real, garbage: real, realOf: (string, nat, nat) -> Option<real>,
                         spke10: (real, seq<real>) -> Option<seq<real>>)
      returns (fault: Option<SetUpFault>, objs: seq<TleObject>, epochs: seq<real>, ep: EpochState)
    requires |params| == 8
    requires forall i :: 0 <= i < |sats| ==> SourceShaped(sats[i].tle)
    ensures AllShaped(objs) && |epochs| == |sats| && |objs| <= |sats|
    ensures |sats| == 0 ==> fault == None && objs == [] && ep == ep0
    ensures fault.None? ==>
              && |objs| == |sats|
              && (|sats| > 0 ==>
                    var tt := toTT(sats[0].epoch);
                    && ep.timeFromEpoch == 0.0
                    && ep.initialTleEpoch == (tt - 21545.0) * SecondsPerDay
                    && AllAgree(sats, tt, params, objs, epochs))
    ensures fault.None? && |sats| > 0 && ep0.currentEpoch == UnsetPropagatorEpoch ==>
              ep.currentEpoch == ep.initialEpoch
    ensures ep0.currentEpoch != UnsetPropagatorEpoch ==> ep.currentEpoch == ep0.currentEpoch
    ensures fault == Some(EpochMismatch) ==>
              |sats| > 1 && (ep0.currentEpoch != UnsetPropagatorEpoch || epochs[0] == UnsetPropagatorEpoch)
  {
    ghost var firstInit := ep0.currentEpoch == UnsetPropagatorEpoch;
    if |sats| == 0 {
      return None, [], [], ep0;
    }
    // The first spacecraft fixes the epochs.
    var initialTT := toTT(sats[0].epoch);
    ep := ep0.(initialEpoch := sats[0].epoch, timeFromEpoch := 0.0,
               initialTleEpoch := (initialTT - 21545.0) * SecondsPerDay);
    var f, o, satEpoch := SetUpOne(sats[0], initialTT, params, garbage, realOf, spke10);
    if f.Some? {
      return f, [], EpochsFrom(sats, 0), ep;
    }
    objs := [o];
    var done: seq<real> := [satEpoch];
    assert sats[..1][..0] == [];
    if ep.currentEpoch == UnsetPropagatorEpoch {
      ep := ep.(currentEpoch := satEpoch, initialEpoch := satEpoch);
    }
    var i := 1;
    while i < |sats|
      invariant 1 <= i <= |sats|
      invariant |objs| == i && |done| == i && AllShaped(objs)
      invariant ep.timeFromEpoch == 0.0 && ep.initialTleEpoch == (initialTT - 21545.0) * SecondsPerDay
      invariant AllAgree(sats[..i], initialTT, params, objs, done)
      invariant firstInit ==> ep.currentEpoch == ep.initialEpoch
      invariant firstInit && done[0] != UnsetPropagatorEpoch ==> ep.initialEpoch == done[0]
      invariant !firstInit ==> ep.currentEpoch == ep0.currentEpoch
    {
      // As written, the epoch check reads spacecraft 0, not spacecraft i.
      if done[0] != ep.initialEpoch {
        return Some(EpochMismatch), objs, done + EpochsFrom(sats, i), ep;
      }
      f, o, satEpoch := SetUpOne(sats[i], initialTT, params, garbage, realOf, spke10);
      if f.Some? {
        return f, objs, done + EpochsFrom(sats, i), ep;
      }
      assert sats[..i + 1][..i] == sats[..i] && (objs + [o])[..i] == objs && (done + [satEpoch])[..i] == done;
      objs := objs + [o];
      done := done + [satEpoch];
      if ep.currentEpoch == UnsetPropagatorEpoch {
        ep := ep.(currentEpoch := satEpoch, initialEpoch := satEpoch);
      }
      i := i + 1;
    }
    assert sats[..i] == sats;
    return None, objs, done, ep;
  }

  /** One spacecraft of the set-up loop: its central body must be Earth,
      then its TLE is set up. */
  method SetUpOne(sat: SatInput, toTime: real, params: seq<real>, garbage: real,
                  realOf: (string, nat, nat) -> Option<real>,
                  spke10: (real, seq<real>) -> Option<seq<real>>)
      returns (fault: Option<SetUpFault>, o: TleObject, satEpoch: real)
    requires SourceShaped(sat.tle) && |params| == 8
    ensures ObjectShaped(o)
    ensures fault.None? <==> sat.centralBody == "Earth" &&
                             TleAccepted(sat.tle, toTime, params, garbage, realOf, spke10)
    ensures fault.None? ==> SetUpAgrees(sat, toTime, params, o, satEpoch)
    ensures sat.centralBody != "Earth" ==> fault == Some(CentralBodyNotEarth)
    ensures fault != Some(EpochMismatch)
  {
    o := ExpectedObject(sat.tle, toTime, params);
    satEpoch := sat.epoch;
    if sat.centralBody != "Earth" {
      return Some(CentralBodyNotEarth), o, satEpoch;
    }
    var started := InitializeTle(Some(sat.tle), toTime, params, garbage, realOf, spke10);
    if started.Err? {
      return Some(TleFailed(started.msg)), o, satEpoch;
    }
    var start := started.value.value;
    o := start.obj;
    if start.newSatEpoch.Some? {
      satEpoch := start.newSatEpoch.value;
    }
    return None, o, satEpoch;
  }

  /** The epochs of the spacecraft from index i on, as they were given. */
  function EpochsFrom(sats: seq<SatInput>, i: nat): (r: seq<real>)
    requires i <= |sats|
    ensures |r| == |sats| - i
    ensures forall j :: 0 <= j < |r| ==> r[j] == sats[i + j].epoch
  {
    seq(|sats| - i, j requires 0 <= j < |sats| - i => sats[i + j].epoch)
  }

  /** Every spacecraft of a prefix set up as its TLE dictates. */
  predicate AllAgree(sats: seq<SatInput>, toTime: real, params: seq<real>,
                     objs: seq<TleObject>, epochs: seq<real>)
    requires forall i :: 0 <= i < |sats| ==> SourceShaped(sats[i].tle)
    requires |params| == 8
  {
    && |objs| == |sats| && |epochs| == |sats|
    && (|sats| > 0 ==>
          var n := |sats| - 1;
          && AllAgree(sats[..n], toTime, params, objs[..n], epochs[..n])
          && SetUpAgrees(sats[n], toTime, params, objs[n], epochs[n]))
  }

  /** Agreement of the whole prefix is agreement of each spacecraft. */
  lemma {:induction false} AllAgreeEach(sats: seq<SatInput>, toTime: real, params: seq<real>,
                                        objs: seq<TleObject>, epochs: seq<real>)
    requires forall i :: 0 <= i < |sats| ==> SourceShaped(sats[i].tle)
    requires |params| == 8
    requires AllAgree(sats, toTime, params, objs, epochs)
    ensures |objs| == |sats| == |epochs|
    ensures forall j :: 0 <= j < |sats| ==>
              SetUpAgrees(sats[j], toTime, params, objs[j], epochs[j])
  {
    if |sats| > 0 {
      var n := |sats| - 1;
      AllAgreeEach(sats[..n], toTime, params, objs[..n], epochs[..n]);
      forall j | 0 <= j < n
        ensures SetUpAgrees(sats[j], toTime, params, objs[j], epochs[j])
      {
        assert sats[..n][j] == sats[j] && objs[..n][j] == objs[j] && epochs[..n][j] == epochs[j];
      }
    }
  }

  /** One spacecraft set up as its TLE dictates: its central body is
      Earth, the record is the expected one and the spacecraft keeps its
      epoch or takes the TLE's. */
  predicate SetUpAgrees(sat: SatInput, toTime: real, params: seq<real>, o: TleObject, e: real)
    requires SourceShaped(sat.tle) && |params| == 8
  {
    && sat.centralBody == "Earth"
    && o == ExpectedObject(sat.tle, toTime, params)
    && e == EpochAfterSetUp(sat.epoch, toTime, sat.tle.tleEpoch)
  }

  /** A spacecraft handed to Initialize: its name, epoch, central body and
      what the TLE reader finds for it. */
  datatype SatInput = SatInput(name: string, epoch: real, centralBody: string, tle: TleSource)

  /** The ten parameter names, in id order from the base class's count. */
  const ParameterText: seq<string> :=
    ["StepSize", "ConfigurationFile", "J2", "J3", "J4", "KE", "QO", "SO", "ER", "AE"]

  /** The number of own parameters. */
  const ParameterCount: nat := 10

  const CentralBodyId: int := 255
  const EpochFormatId: int := 257
  const StartEpochId: int := 258

  /** None of the three spacecraft fields is an own parameter name (their
      lengths alone tell them apart). */
  lemma NamesAreNotLabels()
    ensures |ParameterText| == ParameterCount
    ensures "CentralBody" !in ParameterText && "EpochFormat" !in ParameterText &&
            "StartEpoch" !in ParameterText
    ensures forall k :: 0 <= k < |ParameterText| && ParameterText[k] == "ConfigurationFile" ==> k == 1
  {
    assert forall k :: 0 <= k < |ParameterText| ==> |ParameterText[k]| != 10 && |ParameterText[k]| != 11;
  }

  /** An access the propagator answers itself, or one it passes on to the
      base class. */
  datatype Handled<T> = Handled(value: T) | Delegated

  class SPICEPropagator {
    /** The number of parameters of the base class: the first own id. */
    const paramBase: int
    var stepSize: real
    var stepSizeBuffer: real
    /** J2, J3, J4, KE, QO, SO, ER, AE. */
    const params: array<real>
    var configFileName: string
    var initialEpoch: real
    var currentEpoch: real
    var timeFromEpoch: real
    var initialTleEpoch: real
    var stepTaken: real
    var isInitialized: bool
    var dimension: int
    /** The per-spacecraft records, in spacecraft order. */
    var objects: seq<TleObject>
    /** The epochs of the propagated spacecraft as Initialize leaves them. */
    var satEpochs: seq<real>
    /** The concatenated states of the last step. */
    var state: seq<real>

    predicate Valid()
      reads this
    {
      params.Length == 8 && 0 <= paramBase && paramBase + ParameterCount <= CentralBodyId &&
      AllShaped(objects)
    }

    /** A new propagator: the SGP4 constants of SPICE's defaults, both
        epochs unset, a 60 s step taken. */
    constructor (base: int, initialStep: real)
      requires 0 <= base && base + ParameterCount <= CentralBodyId
      ensures Valid() && fresh(params)
      ensures params[..] == [0.001082616, -0.00000253881, -0.00000165597, 0.0743669161,
                             120.0, 78.0, 6378.135, 1.0]
      ensures paramBase == base && stepSize == initialStep && stepSizeBuffer == initialStep
      ensures configFileName == "" && !isInitialized && objects == [] && satEpochs == []
      ensures initialEpoch == UnsetPropagatorEpoch && currentEpoch == UnsetPropagatorEpoch
      ensures timeFromEpoch == 0.0 && stepTaken == 60.0
    {
      paramBase := base;
      stepSize := initialStep;
      stepSizeBuffer := initialStep;
      var p := new real[8];
      p[0], p[1], p[2], p[3] := 0.001082616, -0.00000253881, -0.00000165597, 0.0743669161;
      p[4], p[5], p[6], p[7] := 120.0, 78.0, 6378.135, 1.0;
      params := p;
      configFileName := "";
      initialEpoch := UnsetPropagatorEpoch;
      currentEpoch := UnsetPropagatorEpoch;
      timeFromEpoch := 0.0;
      initialTleEpoch := 0.0;
      stepTaken := 60.0;
      isInitialized := false;
      dimension := 0;
      objects := [];
      satEpochs := [];
      state := [];
    }

    // -------------------------------------------------------------------
    // Parameter access

    /** The id of a name: the three script fields the propagator takes
        from the spacecraft get fixed ids (CentralBody is ignored, so it
        maps to the ignored id 255), its own names count up from the base
        class's count, and any other name is the base class's (baseId). */
    function GetParameterID(str: string, baseId: int): (id: int)
      reads this
      requires Valid() && baseId < paramBase
      ensures str == "CentralBody" ==> id == CentralBodyId
      ensures str == "EpochFormat" ==> id == EpochFormatId
      ensures str == "StartEpoch" ==> id == StartEpochId
      ensures str !in ParameterText && str !in ["CentralBody", "EpochFormat", "StartEpoch"] ==> id == baseId
      ensures paramBase <= id < paramBase + ParameterCount ==> ParameterText[id - paramBase] == str
      ensures str in ParameterText ==> paramBase <= id < paramBase + ParameterCount
    {
      NamesAreNotLabels();
      if str == "CentralBody" then CentralBodyId
      else if str == "EpochFormat" then EpochFormatId
      else if str == "StartEpoch" then StartEpochId
      else
        var k := FirstIndex(ParameterText, str);
        if k < |ParameterText| then paramBase + k else baseId
    }

    /** Every id of the propagator's own is read-only; below them the base
        class decides (baseReadOnly). */
    function IsParameterReadOnly(id: int, baseReadOnly: bool): (r: bool)
      reads this
      ensures id >= paramBase ==> r
      ensures id < paramBase ==> r == baseReadOnly
    {
      if id >= paramBase then true else baseReadOnly
    }

    /** Every name the propagator handles itself, the three spacecraft
        fields included, is read-only. */
    lemma OwnNamesReadOnly(str: string, baseId: int, baseReadOnly: bool)
      requires Valid() && baseId < paramBase
      requires str in ParameterText || str in ["CentralBody", "EpochFormat", "StartEpoch"]
      ensures IsParameterReadOnly(GetParameterID(str, baseId), baseReadOnly)
    {
    }

    function GetRealParameter(id: int): (r: Handled<Result<real>>)
      reads this, params
      requires Valid()
      ensures id < paramBase <==> r.Delegated?
      ensures id == paramBase ==> r == Handled(Ok(stepSize))
      ensures paramBase + 2 <= id < paramBase + 10 ==> r == Handled(Ok(params[id - paramBase - 2]))
      ensures (id == paramBase + 1 || id >= paramBase + 10) ==> r == Handled(Err(NotRealMessage))
    {
      if id < paramBase then Delegated
      else if id == paramBase then Handled(Ok(stepSize))
      else if paramBase + 2 <= id < paramBase + 10 then Handled(Ok(params[id - paramBase - 2]))
      else Handled(Err(NotRealMessage))
    }

    /** StepSize sets both the step and its buffer; J2..AE set their
        constant; any other own id throws; lower ids go to the base class.
        A successful set reads back as the value set. */
    method SetRealParameter(id: int, value: real) returns (res: Handled<Result<real>>)
      requires Valid()
      modifies this, params
      ensures Valid() && objects == old(objects)
      ensures id < paramBase <==> res.Delegated?
      ensures res.Handled? && res.value.Ok? ==> res.value.value == value && GetRealParameter(id) == res
      ensures id == paramBase ==> res == Handled(Ok(value)) && stepSize == value && stepSizeBuffer == value &&
                                  params[..] == old(params[..])
      ensures paramBase + 2 <= id < paramBase + 10 ==>
                res == Handled(Ok(value)) && params[..] == old(params[..])[id - paramBase - 2 := value] &&
                stepSize == old(stepSize) && stepSizeBuffer == old(stepSizeBuffer)
      ensures (id < paramBase || id == paramBase + 1 || id >= paramBase + 10) ==>
                params[..] == old(params[..]) && stepSize == old(stepSize) &&
                stepSizeBuffer == old(stepSizeBuffer)
      ensures (id == paramBase + 1 || id >= paramBase + 10) ==> res == Handled(Err(NotRealMessage))
    {
      if id < paramBase {
        return Delegated;
      }
      if id == paramBase {
        stepSize := value;
        stepSizeBuffer := value;
        return Handled(Ok(value));
      }
      if paramBase + 2 <= id < paramBase + 10 {
        params[id - paramBase - 2] := value;
        return Handled(Ok(value));
      }
      return Handled(Err(NotRealMessage));
    }

    function GetStringParameter(id: int): (r: Handled<string>)
      reads this
      requires Valid()
      ensures id == paramBase + 1 ==> r == Handled(configFileName)
      ensures id == EpochFormatId ==> r == Handled("A1ModJulian")
      ensures id == StartEpochId ==> r == Handled("21545")
      ensures r.Delegated? <==> id != paramBase + 1 && id != EpochFormatId && id != StartEpochId
    {
      if id == paramBase + 1 then Handled(configFileName)
      else if id == EpochFormatId then Handled("A1ModJulian")
      else if id == StartEpochId then Handled("21545")
      else Delegated
    }

    /** The label form answers the three spacecraft fields directly. */
    function GetStringParameterByLabel(name: string, baseId: int): (r: Handled<string>)
      reads this
      requires Valid() && baseId < paramBase
      ensures name == "CentralBody" ==> r == Handled("Earth")
      ensures name == "EpochFormat" ==> r == Handled("A1ModJulian")
      ensures name == "StartEpoch" ==> r == Handled("21545")
      ensures name == "ConfigurationFile" ==> r == Handled(configFileName)
    {
      if name == "CentralBody" then Handled("Earth")
      else if name == "EpochFormat" then Handled("A1ModJulian")
      else if name == "StartEpoch" then Handled("21545")
      else
        NamesAreNotLabels();
        GetStringParameter(GetParameterID(name, baseId))
    }

    /** Ids from 255 up are accepted and ignored; the configuration file
        name is stored; other ids go to the base class. */
    method SetStringParameter(id: int, value: string) returns (res: Handled<bool>)
      requires Valid()
      modifies this
      ensures Valid() && unchanged(params) && objects == old(objects)
      ensures id >= CentralBodyId ==> res == Handled(true) && configFileName == old(configFileName)
      ensures id == paramBase + 1 ==> res == Handled(true) && configFileName == value &&
                                      GetStringParameter(id) == Handled(value)
      ensures id != paramBase + 1 && id < CentralBodyId ==>
                res == Delegated && configFileName == old(configFileName)
      ensures stepSize == old(stepSize) && stepSizeBuffer == old(stepSizeBuffer)
    {
      if id >= CentralBodyId {
        return Handled(true);
      }
      if id == paramBase + 1 {
        configFileName := value;
        return Handled(true);
      }
      return Delegated;
    }

    /** Setting any of the three spacecraft fields by name is accepted and
        changes nothing. */
    lemma SpacecraftFieldsIgnored(name: string, baseId: int)
      requires Valid() && baseId < paramBase && name in ["CentralBody", "EpochFormat", "StartEpoch"]
      ensures GetParameterID(name, baseId) >= CentralBodyId
    {
    }

    // -------------------------------------------------------------------
    // Initialization

    /** Initialize. The state size is six per spacecraft; when the base
        class initializes, every spacecraft is set up in turn (see
        SetUpSpacecraft) and the epochs, records and spacecraft epochs it
        leaves are stored, also when it stops at a failure. */
    method Initialize(sats: seq<SatInput>, baseReady: bool, toTT: real -> real,
                      garbage: real, realOf: (string, nat, nat) -> Option<real>,
                      spke10: (real, seq<real>) -> Option<seq<real>>)
        returns (res: Result<bool>)
      requires Valid()
      requires forall i :: 0 <= i < |sats| ==> SourceShaped(sats[i].tle)
      modifies this
      ensures Valid() && dimension == 6 * |sats|
      ensures !baseReady ==> res == Ok(false) && objects == old(objects) &&
                             isInitialized == old(isInitialized)
      ensures baseReady ==> |satEpochs| == |sats| && AllShaped(objects)
      ensures res.Ok? && baseReady ==>
                && res == Ok(true) && isInitialized && |objects| == |sats|
                && (|sats| > 0 ==>
                      var tt := toTT(sats[0].epoch);
                      && timeFromEpoch == 0.0
                      && initialTleEpoch == (tt - 21545.0) * SecondsPerDay
                      && AllAgree(sats, tt, params[..], objects, satEpochs))
      ensures res.Ok? && baseReady && |sats| > 0 && old(currentEpoch) == UnsetPropagatorEpoch ==>
                currentEpoch == initialEpoch
    {
      if !baseReady {
        dimension := 6 * |sats|;
        return Ok(false);
      }
      var ep0 := EpochState(initialEpoch, currentEpoch, timeFromEpoch, initialTleEpoch);
      var p := params[..];
      var fault, objs, epochs, ep := SetUpSpacecraft(sats, ep0, p, toTT, garbage, realOf, spke10);
      dimension, objects, satEpochs, isInitialized := 6 * |sats|, objs, epochs, isInitialized || fault.None?;
      initialEpoch, currentEpoch, timeFromEpoch, initialTleEpoch :=
        ep.initialEpoch, ep.currentEpoch, ep.timeFromEpoch, ep.initialTleEpoch;
      if fault.Some? {
        return Err(FaultMessage(fault.value));
      }
      assert params[..] == p;
      return Ok(true);
    }

    // -------------------------------------------------------------------
    // Stepping

    /** The epoch bookkeeping every step keeps: the propagator epoch is the
        initial epoch plus the elapsed seconds. */
    predicate EpochConsistent()
      reads this
    {
      currentEpoch == initialEpoch + timeFromEpoch / SecondsPerDay
    }

    /** Step(): advance the elapsed time by the step size, rebuild stale
        buffers, evaluate every spacecraft at the new epoch and record the
        step taken and the new propagator epoch. */
    method StepOnce(spke10: (real, seq<real>) -> Option<seq<real>>) returns (res: Result<bool>)
      requires Valid()
      modifies this
      ensures Valid() && |objects| == |old(objects)|
      ensures timeFromEpoch == old(timeFromEpoch) + old(stepSize)
      ensures stepSize == old(stepSize) && stepSizeBuffer == old(stepSizeBuffer)
      ensures initialEpoch == old(initialEpoch) && initialTleEpoch == old(initialTleEpoch)
      ensures isInitialized == old(isInitialized)
      ensures var objs := RefreshAll(old(objects), params[..]);
              var out := Propagated(objs, initialTleEpoch + timeFromEpoch, spke10);
              && (res.Ok? <==> out.Some?)
              && (res.Ok? ==> res == Ok(true) && objects == objs && state == out.value &&
                              stepTaken == stepSize && EpochConsistent())
              && (res.Err? ==> res == Err(SpiceFailureMessage))
    {
      timeFromEpoch := timeFromEpoch + stepSize;
      var propEpoch := initialTleEpoch + timeFromEpoch;
      var ok, newObjects, newState := EvaluateAll(objects, params[..], propEpoch, spke10);
      objects := newObjects;
      if !ok {
        return Err(SpiceFailureMessage);
      }
      state := newState;
      stepTaken := stepSize;
      currentEpoch := initialEpoch + timeFromEpoch / SecondsPerDay;
      return Ok(true);
    }

    /** Step(dt): only once initialized, a step of dt with the configured
        step size restored afterwards. A failed SPICE evaluation throws
        before the restore, so the step size is left at dt. */
    method Step(dt: real, spke10: (real, seq<real>) -> Option<seq<real>>) returns (res: Result<bool>)
      requires Valid()
      modifies this
      ensures Valid()
      ensures !old(isInitialized) ==> res == Ok(false) && timeFromEpoch == old(timeFromEpoch) &&
                                      stepSize == old(stepSize) && objects == old(objects)
      ensures old(isInitialized) && res.Ok? ==>
                && res == Ok(true) && stepSize == old(stepSize)
                && timeFromEpoch == old(timeFromEpoch) + dt && stepTaken == dt
                && EpochConsistent()
                && objects == RefreshAll(old(objects), params[..])
      ensures res.Err? ==> stepSize == dt
    {
      if !isInitialized {
        return Ok(false);
      }
      var tempStep := stepSize;
      stepSize := dt;
      res := StepOnce(spke10);
      if res.Err? {
        return;
      }
      stepSize := tempStep;
    }

    /** RawStep is not supported: it always reports failure. */
    method RawStep() returns (r: bool)
      ensures !r
    {
      r := false;
    }
  }

  /** If a prefix of the spacecraft cannot be propagated, neither can the
      whole set. */
  lemma {:induction false} PropagatedPrefixFails(objs: seq<TleObject>, k: nat, propEpoch: real,
                                                 spke10: (real, seq<real>) -> Option<seq<real>>)
    requires k <= |objs|
    requires Propagated(objs[..k], propEpoch, spke10).None?
    ensures Propagated(objs, propEpoch, spke10).None?
    decreases |objs| - k
  {
    if k < |objs| {
      assert objs[..k + 1][..k] == objs[..k];
      PropagatedPrefixFails(objs, k + 1, propEpoch, spke10);
    } else {
      assert objs[..k] == objs;
    }
  }
}
