/** The function interface of the optimal-control prototype
    (FunctionInterface/GMATFunction.py): the per-point phase configurations
    and scalers, the custom settings, the scaled function bounds, the
    extraction of the requested sub-states of a point's decision vector, the
    frame and representation changes that bring the orbit sub-state to the
    function's frame, the layout of the Jacobian of the result, and the
    mapping of representation names to their enumeration values.

    The decision vector at a point, the unscaling, the ephemeris
    translation, the axes rotation, the gravitational parameters and the
    analytic Jacobians of the conversions come from objects outside this
    model: they enter as the functions and values of a StateEnv or a
    JacobianEnv. */
module GMATFunctionModel {
  import opened Common
  import opened Matrices
  import SC = StateConversionsModel
  import EKF = ExtendedKalmanFilterModel

  // ---------------------------------------------------------------------
  // Python exceptions

  /** The exceptions the interface lets escape: from the list, dictionary
      and attribute look-ups, from numpy's slice assignments, and from the
      state conversions. */
  datatype PyError =
    | ListIndexOutOfRange
    | ListAssignmentOutOfRange
    | MissingKey(key: string)
    | NoScaleVector
    | NoUnits
    | NoOrigin
    | Broadcast(from: nat, into: nat)
    | MassOutOfBounds(index: int, size: nat)
    | BlockShape(width: nat)
    | Conversion(msg: string)

  /** What Python prints for each exception. */
  function PyErrorMessage(e: PyError): string
  {
    match e
    case ListIndexOutOfRange => "IndexError: list index out of range"
    case ListAssignmentOutOfRange => "IndexError: list assignment index out of range"
    case MissingKey(key) => Text(["KeyError: '", key, "'"])
    case NoScaleVector => "AttributeError: 'list' object has no attribute 'ScaleVector'"
    case NoUnits => "AttributeError: 'list' object has no attribute 'Units'"
    case NoOrigin => "AttributeError: 'list' object has no attribute 'Origin'"
    case Broadcast(from, into) =>
      Text(["ValueError: could not broadcast input array from shape (", NatToString(from),
            ",) into shape (", NatToString(into), ",)"])
    case MassOutOfBounds(index, size) =>
      Text(["IndexError: index ", IntToString(index), " is out of bounds for axis 0 with size ", NatToString(size)])
    case BlockShape(width) =>
      Text(["ValueError: could not broadcast input array from shape (6,6) into shape (",
            NatToString(width), ",", NatToString(width), ")"])
    case Conversion(msg) => msg
  }

  /** A value, or the exception raised on the way. */
  datatype Attempt<T> = Got(value: T) | Raise(error: PyError) {
    predicate IsFailure() { Raise? }
    function PropagateFailure<U>(): Attempt<U>
      requires Raise?
    {
      Raise(error)
    }
    function Extract(): T
      requires Got?
    {
      value
    }
  }

  /** A state conversion's result, its error message kept. */
  function Converted(r: Result<seq<real>>): Attempt<seq<real>>
  {
    match r
    case Ok(v) => Got(v)
    case Err(m) => Raise(Conversion(m))
  }

  // ---------------------------------------------------------------------
  // Python list operations

  /** Where Python's list.insert(i, x) puts x in a list of n entries: a
      negative index counts from the end, and the place is clamped to
      [0, n]. */
  function InsertPosition(n: nat, i: int): nat
  {
    if i < 0 then (if i + n < 0 then 0 else i + n) else if i > n then n else i
  }

  function PyInsert<T>(s: seq<T>, i: int, x: T): seq<T>
  {
    InsertAt(s, InsertPosition(|s|, i), x)
  }

  /** The entry Python's s[i] denotes in a list of n entries, if any. */
  function PyIndex(n: nat, i: int): Option<nat>
  {
    if 0 <= i < n then Some(i) else if i < 0 && 0 <= i + n then Some(i + n) else None
  }

  /** SetPhaseConfig and SetPhaseScaler: "insert" inserts at pointIdx,
      "overwrite" replaces the entry at pointIdx (an IndexError when there
      is none), any other insertion type does nothing. */
  function Place<T>(s: seq<T>, i: int, x: T, insertionType: string): Attempt<seq<T>>
  {
    if insertionType == "insert" then Got(PyInsert(s, i, x))
    else if insertionType == "overwrite" then
      match PyIndex(|s|, i)
      case Some(k) => Got(s[k := x])
      case None => Raise(ListAssignmentOutOfRange)
    else Got(s)
  }

  /** An insert adds exactly one entry, at pointIdx when that is in
      [0, |s|], and removing it gives back the old list; an overwrite
      succeeds exactly for the indices Python accepts and changes that one
      entry only. */
  lemma PlaceRules<T>(s: seq<T>, i: int, x: T, insertionType: string)
    ensures insertionType == "insert" ==>
      var p := InsertPosition(|s|, i);
      var r := Place(s, i, x, insertionType);
      r.Got? && p <= |s| && |r.value| == |s| + 1 && r.value[p] == x && RemoveAt(r.value, p) == s
    ensures 0 <= i <= |s| ==> InsertPosition(|s|, i) == i
    ensures insertionType == "overwrite" ==> (Place(s, i, x, insertionType).Got? <==> -|s| <= i < |s|)
    ensures insertionType == "overwrite" && 0 <= i < |s| ==> Place(s, i, x, insertionType) == Got(s[i := x])
    ensures insertionType == "overwrite" && -|s| <= i < 0 ==> Place(s, i, x, insertionType) == Got(s[i + |s| := x])
    ensures insertionType != "insert" && insertionType != "overwrite" ==> Place(s, i, x, insertionType) == Got(s)
  {
    if insertionType == "insert" {
      var p := InsertPosition(|s|, i);
      var v := PyInsert(s, i, x);
      assert v == s[..p] + [x] + s[p..];
      assert RemoveAt(v, p) == s;
    }
  }

  // ---------------------------------------------------------------------
  // Configuration

  /** One entry of PhaseConfig.DecVecData: a named sub-state and its size. */
  datatype SubState = SubState(name: string, size: nat)

  /** The parts of a phase (or function) configuration the interface reads. */
  datatype PhaseConfig = PhaseConfig(decVecData: seq<SubState>, units: seq<string>,
                                     origin: string, axes: string, orbitStateRep: string)

  /** A ScaleUtility object, known by identity only. */
  datatype Scaler = Scaler(handle: nat)

  /** ScaleUtility.ScaleVector or UnscaleVector of a vector and its units. */
  type ScaleFn = (Scaler, seq<real>, seq<string>) -> seq<real>

  /** The attributes of a GMATFunction the model keeps. funConfig and
      funScaler start as empty lists in GMAT; None stands for that. */
  datatype Fields = Fields(phaseConfigs: seq<PhaseConfig>, phaseScalers: seq<Scaler>,
                           funConfig: Option<PhaseConfig>, funScaler: Option<Scaler>,
                           funLBScaled: seq<real>, funUBScaled: seq<real>,
                           customSettings: map<string, string>, ephemType: string)

  // ---------------------------------------------------------------------
  // Custom settings

  /** GetCustomSetting: the stored value, or a KeyError for a key never set. */
  function SettingOf(settings: map<string, string>, key: string): Attempt<string>
  {
    if key in settings then Got(settings[key]) else Raise(MissingKey(key))
  }

  /** A setting reads back as the last value set for its key, setting one
      key leaves the others alone, and only keys never set fail. */
  lemma CustomSettingRules(settings: map<string, string>, key: string, value: string, other: string)
    ensures SettingOf(settings[key := value], key) == Got(value)
    ensures other != key ==> SettingOf(settings[key := value], other) == SettingOf(settings, other)
    ensures SettingOf(settings, key).Raise? <==> key !in settings
  {
  }

  // ---------------------------------------------------------------------
  // Function bounds

  /** SetFunBounds: both bounds scaled by the function's scaler with the
      function configuration's units. The scaler's method is looked up
      before the configuration's units, so a missing scaler is reported
      first. */
  function BoundsSet(f: Fields, lb: seq<real>, ub: seq<real>, scale: ScaleFn): Attempt<Fields>
  {
    if f.funScaler.None? then Raise(NoScaleVector)
    else if f.funConfig.None? then Raise(NoUnits)
    else Got(f.(funLBScaled := scale(f.funScaler.value, lb, f.funConfig.value.units),
               funUBScaled := scale(f.funScaler.value, ub, f.funConfig.value.units)))
  }

  /** Setting the bounds fails exactly when the function scaler or the
      function configuration was never set; otherwise it changes the two
      bounds only, and a lower and an upper bound given equal come back
      equal. */
  lemma BoundsSetRules(f: Fields, lb: seq<real>, ub: seq<real>, scale: ScaleFn)
    ensures BoundsSet(f, lb, ub, scale).Got? <==> f.funScaler.Some? && f.funConfig.Some?
    ensures BoundsSet(f, lb, ub, scale).Got? ==>
      var g := BoundsSet(f, lb, ub, scale).value;
      g.(funLBScaled := f.funLBScaled, funUBScaled := f.funUBScaled) == f &&
      (lb == ub ==> g.funLBScaled == g.funUBScaled)
  {
  }

  // ---------------------------------------------------------------------
  // Representation names

  /** StringtoEnum: the stateTypes value of a representation name, None
      for any other name. */
  function StringToEnum(stateType: string): Option<int>
  {
    if stateType == "Cartesian" then Some(SC.Cartesian)
    else if stateType == "SphericalAzFPA" then Some(SC.SphericalAzFPA)
    else if stateType == "ClassicalKeplerian" then Some(SC.ClassicalKeplerian)
    else None
  }

  function EnumName(k: int): string
  {
    if k == SC.Cartesian then "Cartesian"
    else if k == SC.ClassicalKeplerian then "ClassicalKeplerian"
    else if k == SC.SphericalAzFPA then "SphericalAzFPA"
    else ""
  }

  /** The three names and the three values correspond one to one. */
  lemma StringToEnumRoundTrip(s: string, k: int)
    ensures SC.IsStateType(k) ==> StringToEnum(EnumName(k)) == Some(k)
    ensures StringToEnum(s).Some? ==> SC.IsStateType(StringToEnum(s).value) && EnumName(StringToEnum(s).value) == s
    ensures StringToEnum(s).None? <==> s != "Cartesian" && s != "ClassicalKeplerian" && s != "SphericalAzFPA"
  {
  }

  // ---------------------------------------------------------------------
  // Sub-state slicing

  /** Where the k-th sub-state starts in the full decision vector. */
  function Offset(data: seq<SubState>, k: nat): nat
    requires k <= |data|
  {
    if k == 0 then 0 else Offset(data, k - 1) + data[k - 1].size
  }

  lemma OffsetMonotone(data: seq<SubState>, k: nat, m: nat)
    requires k <= m <= |data|
    ensures Offset(data, k) <= Offset(data, m)
    decreases m - k
  {
    if k < m {
      OffsetMonotone(data, k, m - 1);
    }
  }

  /** Python's s[a:b] for a <= b: both ends clamped to the length. */
  function PySlice<T>(s: seq<T>, a: nat, b: nat): (r: seq<T>)
    ensures b <= |s| && a <= b ==> r == s[a..b]
  {
    var lo := if a < |s| then a else |s|;
    var hi := if b < lo then lo else if b < |s| then b else |s|;
    s[lo..hi]
  }

  /** The sub-state names the slicing tracks. */
  const OrbitName: string := "OrbitState"
  const MassName: string := "TotalMass"

  /** [start, end) as GMAT's idxOrbStart and idxOrbEnd. */
  datatype Range = Range(start: int, end: int)

  /** What the slicing yields: the state and units, the orbit range, and
      the mass index two ways: as GMAT computes it (the offset in the
      full vector) and as the offset in the returned state. */
  datatype Sliced = Sliced(state: seq<real>, units: seq<string>, orbit: Option<Range>,
                           massFull: Option<int>, massLocal: Option<Range>)

  /** The 'All' pass: the whole vector, the range of the last OrbitState
      sub-state and the offset of the last TotalMass one. */
  function ScanAll(data: seq<SubState>, k: nat, j: nat, acc: Sliced): Sliced
    requires k <= |data|
    decreases |data| - k
  {
    if k == |data| then acc
    else
      var next := j + data[k].size;
      var a1 := if data[k].name == OrbitName then acc.(orbit := Some(Range(j, next))) else acc;
      var a2 := if data[k].name == MassName then a1.(massFull := Some(j), massLocal := Some(Range(j, next))) else a1;
      ScanAll(data, k + 1, next, a2)
  }

  /** A matching sub-state appended to the result. */
  function Extend(acc: Sliced, e: string, d: SubState, j: nat, full: seq<real>, unitsFull: seq<string>): Sliced
  {
    var st := acc.state + PySlice(full, j, j + d.size);
    Sliced(st, acc.units + PySlice(unitsFull, j, j + d.size),
           if e == OrbitName then Some(Range(|st| - d.size, |st|)) else acc.orbit,
           if d.name == MassName then Some(j) else acc.massFull,
           if d.name == MassName then Some(Range(|st| - d.size, |st|)) else acc.massLocal)
  }

  /** One requested element: every sub-state of that name, in the order of
      DecVecData. */
  function PickFrom(e: string, data: seq<SubState>, k: nat, j: nat, full: seq<real>, unitsFull: seq<string>, acc: Sliced): Sliced
    requires k <= |data|
    decreases |data| - k
  {
    if k == |data| then acc
    else
      var a := if e == data[k].name then Extend(acc, e, data[k], j, full, unitsFull) else acc;
      PickFrom(e, data, k + 1, j + data[k].size, full, unitsFull, a)
  }

  /** The requested elements in request order. */
  function PickAll(es: seq<string>, i: nat, data: seq<SubState>, full: seq<real>, unitsFull: seq<string>, acc: Sliced): Sliced
    requires i <= |es|
    decreases |es| - i
  {
    if i == |es| then acc
    else PickAll(es, i + 1, data, full, unitsFull, PickFrom(es[i], data, 0, 0, full, unitsFull, acc))
  }

  const NothingSliced := Sliced([], [], None, None, None)

  /** The slicing of GetUnscaledStateForFun and of the Jacobian: an empty
      request list fails on returnElements[0]; 'All' first keeps the whole
      vector; otherwise the named sub-states are gathered. */
  function Slice(es: seq<string>, cfg: PhaseConfig, full: seq<real>): Attempt<Sliced>
  {
    if es == [] then Raise(ListIndexOutOfRange)
    else if es[0] == "All" then Got(ScanAll(cfg.decVecData, 0, 0, Sliced(full, cfg.units, None, None, None)))
    else Got(PickAll(es, 0, cfg.decVecData, full, cfg.units, NothingSliced))
  }

  /** The sub-states named e, concatenated in DecVecData order. */
  function Collected<T>(e: string, data: seq<SubState>, k: nat, j: nat, v: seq<T>): seq<T>
    requires k <= |data|
    decreases |data| - k
  {
    if k == |data| then []
    else (if e == data[k].name then PySlice(v, j, j + data[k].size) else [])
         + Collected(e, data, k + 1, j + data[k].size, v)
  }

  /** The sub-states of every requested name, in request order. */
  function Gathered<T>(es: seq<string>, i: nat, data: seq<SubState>, v: seq<T>): seq<T>
    requires i <= |es|
    decreases |es| - i
  {
    if i == |es| then [] else Collected(es[i], data, 0, 0, v) + Gathered(es, i + 1, data, v)
  }

  lemma {:induction false} ScanAllKeeps(data: seq<SubState>, k: nat, j: nat, acc: Sliced)
    requires k <= |data|
    ensures ScanAll(data, k, j, acc).state == acc.state && ScanAll(data, k, j, acc).units == acc.units
    decreases |data| - k
  {
    if k < |data| {
      var next := j + data[k].size;
      var a1 := if data[k].name == OrbitName then acc.(orbit := Some(Range(j, next))) else acc;
      var a2 := if data[k].name == MassName then a1.(massFull := Some(j), massLocal := Some(Range(j, next))) else a1;
      ScanAllKeeps(data, k + 1, next, a2);
    }
  }

  lemma ExtendAppends(acc: Sliced, e: string, d: SubState, j: nat, full: seq<real>, unitsFull: seq<string>)
    ensures Extend(acc, e, d, j, full, unitsFull).state == acc.state + PySlice(full, j, j + d.size)
    ensures Extend(acc, e, d, j, full, unitsFull).units == acc.units + PySlice(unitsFull, j, j + d.size)
  {
  }

  lemma {:induction false} PickFromState(e: string, data: seq<SubState>, k: nat, j: nat, full: seq<real>, unitsFull: seq<string>, acc: Sliced)
    requires k <= |data|
    ensures PickFrom(e, data, k, j, full, unitsFull, acc).state == acc.state + Collected(e, data, k, j, full)
    decreases |data| - k
  {
    if k < |data| {
      var next := j + data[k].size;
      if e == data[k].name {
        var a := Extend(acc, e, data[k], j, full, unitsFull);
        var t := PySlice(full, j, next);
        calc {
          PickFrom(e, data, k, j, full, unitsFull, acc).state;
          PickFrom(e, data, k + 1, next, full, unitsFull, a).state;
          { PickFromState(e, data, k + 1, next, full, unitsFull, a); }
          a.state + Collected(e, data, k + 1, next, full);
          { ExtendAppends(acc, e, data[k], j, full, unitsFull); }
          acc.state + t + Collected(e, data, k + 1, next, full);
          acc.state + (t + Collected(e, data, k + 1, next, full));
          acc.state + Collected(e, data, k, j, full);
        }
      } else {
        calc {
          PickFrom(e, data, k, j, full, unitsFull, acc).state;
          PickFrom(e, data, k + 1, next, full, unitsFull, acc).state;
          { PickFromState(e, data, k + 1, next, full, unitsFull, acc); }
          acc.state + Collected(e, data, k + 1, next, full);
          acc.state + Collected(e, data, k, j, full);
        }
      }
    }
  }

  lemma {:induction false} PickFromUnits(e: string, data: seq<SubState>, k: nat, j: nat, full: seq<real>, unitsFull: seq<string>, acc: Sliced)
    requires k <= |data|
    ensures PickFrom(e, data, k, j, full, unitsFull, acc).units == acc.units + Collected(e, data, k, j, unitsFull)
    decreases |data| - k
  {
    if k < |data| {
      var next := j + data[k].size;
      if e == data[k].name {
        var a := Extend(acc, e, data[k], j, full, unitsFull);
        var u := PySlice(unitsFull, j, next);
        calc {
          PickFrom(e, data, k, j, full, unitsFull, acc).units;
          PickFrom(e, data, k + 1, next, full, unitsFull, a).units;
          { PickFromUnits(e, data, k + 1, next, full, unitsFull, a); }
          a.units + Collected(e, data, k + 1, next, unitsFull);
          { ExtendAppends(acc, e, data[k], j, full, unitsFull); }
          acc.units + u + Collected(e, data, k + 1, next, unitsFull);
          acc.units + (u + Collected(e, data, k + 1, next, unitsFull));
          acc.units + Collected(e, data, k, j, unitsFull);
        }
      } else {
        calc {
          PickFrom(e, data, k, j, full, unitsFull, acc).units;
          PickFrom(e, data, k + 1, next, full, unitsFull, acc).units;
          { PickFromUnits(e, data, k + 1, next, full, unitsFull, acc); }
          acc.units + Collected(e, data, k + 1, next, unitsFull);
          acc.units + Collected(e, data, k, j, unitsFull);
        }
      }
    }
  }

  lemma {:induction false} PickAllGathers(es: seq<string>, i: nat, data: seq<SubState>, full: seq<real>, unitsFull: seq<string>, acc: Sliced)
    requires i <= |es|
    ensures PickAll(es, i, data, full, unitsFull, acc).state == acc.state + Gathered(es, i, data, full)
    ensures PickAll(es, i, data, full, unitsFull, acc).units == acc.units + Gathered(es, i, data, unitsFull)
    decreases |es| - i
  {
    if i < |es| {
      var next := PickFrom(es[i], data, 0, 0, full, unitsFull, acc);
      PickFromState(es[i], data, 0, 0, full, unitsFull, acc);
      PickFromUnits(es[i], data, 0, 0, full, unitsFull, acc);
      PickAllGathers(es, i + 1, data, full, unitsFull, next);
    }
  }

  /** The slicing fails only on an empty request; 'All' returns the whole
      vector and its units; any other request returns the sub-states of the
      requested names and their units, in request order and, within a name,
      in DecVecData order. */
  lemma SliceContents(es: seq<string>, cfg: PhaseConfig, full: seq<real>)
    ensures Slice(es, cfg, full).Raise? <==> es == []
    ensures es != [] && es[0] == "All" ==>
      Slice(es, cfg, full).value.state == full && Slice(es, cfg, full).value.units == cfg.units
    ensures es != [] && es[0] != "All" ==>
      Slice(es, cfg, full).value.state == Gathered(es, 0, cfg.decVecData, full) &&
      Slice(es, cfg, full).value.units == Gathered(es, 0, cfg.decVecData, cfg.units)
  {
    if es != [] {
      if es[0] == "All" {
        ScanAllKeeps(cfg.decVecData, 0, 0, Sliced(full, cfg.units, None, None, None));
      } else {
        PickAllGathers(es, 0, cfg.decVecData, full, cfg.units, NothingSliced);
      }
    }
  }

  /** r is where a sub-state called name sits in state: the entries there
      are that sub-state's entries in the full vector. */
  ghost predicate HoldsSubState(state: seq<real>, r: Range, data: seq<SubState>, full: seq<real>, name: string)
  {
    exists k :: 0 <= k < |data| && data[k].name == name && Offset(data, k + 1) <= |full| &&
      0 <= r.start && r.end == r.start + data[k].size && r.end <= |state| &&
      state[r.start..r.end] == full[Offset(data, k)..Offset(data, k + 1)]
  }

  /** The orbit range and the corrected mass range point at sub-states of
      their name. */
  ghost predicate Tracked(acc: Sliced, data: seq<SubState>, full: seq<real>)
  {
    (acc.orbit.Some? ==> HoldsSubState(acc.state, acc.orbit.value, data, full, OrbitName)) &&
    (acc.massLocal.Some? ==> HoldsSubState(acc.state, acc.massLocal.value, data, full, MassName))
  }

  lemma HoldsAfterAppend(state: seq<real>, t: seq<real>, r: Range, data: seq<SubState>, full: seq<real>, name: string)
    requires HoldsSubState(state, r, data, full, name)
    ensures HoldsSubState(state + t, r, data, full, name)
  {
    var k :| 0 <= k < |data| && data[k].name == name && Offset(data, k + 1) <= |full| &&
      0 <= r.start && r.end == r.start + data[k].size && r.end <= |state| &&
      state[r.start..r.end] == full[Offset(data, k)..Offset(data, k + 1)];
    assert (state + t)[r.start..r.end] == state[r.start..r.end];
  }

  /** A sub-state appended to the state sits at the end of the result. */
  lemma AppendedHolds(state: seq<real>, data: seq<SubState>, k: nat, full: seq<real>)
    requires k < |data| && Offset(data, k + 1) <= |full|
    ensures HoldsSubState(state + full[Offset(data, k)..Offset(data, k + 1)],
                          Range(|state|, |state| + data[k].size), data, full, data[k].name)
  {
    var t := full[Offset(data, k)..Offset(data, k + 1)];
    assert (state + t)[|state|..|state| + data[k].size] == t;
  }

  /** Appending keeps the recorded ranges where they were. */
  lemma TrackedAfterAppend(acc: Sliced, t: seq<real>, data: seq<SubState>, full: seq<real>)
    requires Tracked(acc, data, full)
    ensures Tracked(acc.(state := acc.state + t), data, full)
  {
    if acc.orbit.Some? {
      HoldsAfterAppend(acc.state, t, acc.orbit.value, data, full, OrbitName);
    }
    if acc.massLocal.Some? {
      HoldsAfterAppend(acc.state, t, acc.massLocal.value, data, full, MassName);
    }
  }

  lemma {:induction false} ExtendTracks(acc: Sliced, e: string, data: seq<SubState>, k: nat, full: seq<real>, unitsFull: seq<string>)
    requires k < |data| && e == data[k].name && Offset(data, |data|) <= |full|
    requires Tracked(acc, data, full)
    ensures Tracked(Extend(acc, e, data[k], Offset(data, k), full, unitsFull), data, full)
  {
    var j := Offset(data, k);
    OffsetMonotone(data, k + 1, |data|);
    var t := PySlice(full, j, j + data[k].size);
    assert t == full[Offset(data, k)..Offset(data, k + 1)];
    AppendedHolds(acc.state, data, k, full);
    TrackedAfterAppend(acc, t, data, full);
    var st := acc.state + t;
    var here := Some(Range(|st| - data[k].size, |st|));
    var x := Extend(acc, e, data[k], j, full, unitsFull);
    assert x.state == st;
    assert x.orbit == if e == OrbitName then here else acc.orbit;
    assert x.massLocal == if e == MassName then here else acc.massLocal;
  }

  lemma {:induction false} PickFromTracks(e: string, data: seq<SubState>, k: nat, j: nat, full: seq<real>, unitsFull: seq<string>, acc: Sliced)
    requires k <= |data| && j == Offset(data, k) && Offset(data, |data|) <= |full|
    requires Tracked(acc, data, full)
    ensures Tracked(PickFrom(e, data, k, j, full, unitsFull, acc), data, full)
    decreases |data| - k
  {
    if k < |data| {
      var a := if e == data[k].name then Extend(acc, e, data[k], j, full, unitsFull) else acc;
      if e == data[k].name {
        ExtendTracks(acc, e, data, k, full, unitsFull);
      }
      PickFromTracks(e, data, k + 1, j + data[k].size, full, unitsFull, a);
    }
  }

  lemma {:induction false} PickAllTracks(es: seq<string>, i: nat, data: seq<SubState>, full: seq<real>, unitsFull: seq<string>, acc: Sliced)
    requires i <= |es| && Offset(data, |data|) <= |full|
    requires Tracked(acc, data, full)
    ensures Tracked(PickAll(es, i, data, full, unitsFull, acc), data, full)
    decreases |es| - i
  {
    if i < |es| {
      PickFromTracks(es[i], data, 0, 0, full, unitsFull, acc);
      PickAllTracks(es, i + 1, data, full, unitsFull, PickFrom(es[i], data, 0, 0, full, unitsFull, acc));
    }
  }

  lemma {:induction false} ScanAllTracks(data: seq<SubState>, k: nat, j: nat, full: seq<real>, acc: Sliced)
    requires k <= |data| && j == Offset(data, k) && Offset(data, |data|) <= |full|
    requires acc.state == full && Tracked(acc, data, full)
    ensures Tracked(ScanAll(data, k, j, acc), data, full)
    decreases |data| - k
  {
    if k < |data| {
      var next := j + data[k].size;
      OffsetMonotone(data, k + 1, |data|);
      var r := Range(j, next);
      assert HoldsSubState(full, r, data, full, data[k].name) by {
        assert full[r.start..r.end] == full[Offset(data, k)..Offset(data, k + 1)];
      }
      var a1 := if data[k].name == OrbitName then acc.(orbit := Some(r)) else acc;
      var a2 := if data[k].name == MassName then a1.(massFull := Some(j), massLocal := Some(r)) else a1;
      ScanAllTracks(data, k + 1, next, full, a2);
    }
  }

  /** When the decision vector is as long as its sub-states say, the orbit
      range and the corrected mass range of a slicing point at an
      OrbitState and a TotalMass sub-state of the returned state, whether
      'All' or a list of names was requested. */
  lemma SliceRanges(es: seq<string>, cfg: PhaseConfig, full: seq<real>)
    requires Offset(cfg.decVecData, |cfg.decVecData|) <= |full|
    requires Slice(es, cfg, full).Got?
    ensures Tracked(Slice(es, cfg, full).value, cfg.decVecData, full)
  {
    if es[0] == "All" {
      ScanAllTracks(cfg.decVecData, 0, 0, full, Sliced(full, cfg.units, None, None, None));
    } else {
      PickAllTracks(es, 0, cfg.decVecData, full, cfg.units, NothingSliced);
    }
  }

  /** The nested loops of the slicing. */
  method SliceState(es: seq<string>, cfg: PhaseConfig, full: seq<real>) returns (r: Attempt<Sliced>)
    ensures r == Slice(es, cfg, full)
  {
    if es == [] {
      return Raise(ListIndexOutOfRange);
    }
    var data := cfg.decVecData;
    var acc: Sliced;
    if es[0] == "All" {
      acc := Sliced(full, cfg.units, None, None, None);
      var j: nat := 0;
      var k := 0;
      while k < |data|
        invariant k <= |data|
        invariant ScanAll(data, 0, 0, Sliced(full, cfg.units, None, None, None)) == ScanAll(data, k, j, acc)
      {
        var next := j + data[k].size;
        if data[k].name == OrbitName {
          acc := acc.(orbit := Some(Range(j, next)));
        }
        if data[k].name == MassName {
          acc := acc.(massFull := Some(j), massLocal := Some(Range(j, next)));
        }
        j := next;
        k := k + 1;
      }
    } else {
      acc := NothingSliced;
      var i := 0;
      while i < |es|
        invariant i <= |es|
        invariant PickAll(es, 0, data, full, cfg.units, NothingSliced) == PickAll(es, i, data, full, cfg.units, acc)
      {
        ghost var before := acc;
        var j: nat := 0;
        var k := 0;
        while k < |data|
          invariant k <= |data|
          invariant PickFrom(es[i], data, 0, 0, full, cfg.units, before) == PickFrom(es[i], data, k, j, full, cfg.units, acc)
        {
          if es[i] == data[k].name {
            acc := Extend(acc, es[i], data[k], j, full, cfg.units);
          }
          j := j + data[k].size;
          k := k + 1;
        }
        i := i + 1;
      }
    }
    return Got(acc);
  }

  // ---------------------------------------------------------------------
  // Frame and representation changes of the orbit sub-state

  /** sub occurs in s at i. */
  predicate OccursAt(s: string, sub: string, i: int)
  {
    0 <= i && i + |sub| <= |s| && s[i..i + |sub|] == sub
  }

  /** Python's `sub in s` on strings. */
  predicate Contains(s: string, sub: string)
  {
    exists i :: 0 <= i <= |s| && OccursAt(s, sub, i)
  }

  /** The steps GetUnscaledStateForFun applies to the orbit sub-state. */
  datatype Step =
    | PivotToCartesian(from: Option<int>)
    | TranslateOrigin(fromOrigin: string, toOrigin: string)
    | RotateAxes(fromAxes: string, toAxes: string)
    | ConvertRep(fromRep: Option<int>, toRep: Option<int>)

  /** The origin or the axes of the phase differ from the function's. */
  predicate Moves(phase: PhaseConfig, fun: PhaseConfig)
  {
    phase.origin != fun.origin || phase.axes != fun.axes
  }

  function ConversionSteps(phase: PhaseConfig, fun: PhaseConfig): seq<Step>
  {
    var pivot := if Moves(phase, fun) && !Contains(phase.orbitStateRep, "Cartesian")
                 then [PivotToCartesian(StringToEnum(phase.orbitStateRep))] else [];
    var input := if Moves(phase, fun) then StringToEnum("Cartesian") else StringToEnum(phase.orbitStateRep);
    pivot
      + (if phase.origin != fun.origin then [TranslateOrigin(phase.origin, fun.origin)] else [])
      + (if phase.axes != fun.axes then [RotateAxes(phase.axes, fun.axes)] else [])
      + [ConvertRep(input, StringToEnum(fun.orbitStateRep))]
  }

  /** The state is pivoted to Cartesian exactly when the origin or the axes
      differ and the phase representation does not name Cartesian; it is
      translated exactly when the origins differ and rotated exactly when
      the axes differ; the last step always converts to the function's
      representation, from Cartesian whenever the frame moved. With the same
      frame the only step is that conversion. */
  lemma ConversionStepsRules(phase: PhaseConfig, fun: PhaseConfig)
    ensures var steps := ConversionSteps(phase, fun);
      (steps[0] == PivotToCartesian(StringToEnum(phase.orbitStateRep)) <==>
        Moves(phase, fun) && !Contains(phase.orbitStateRep, "Cartesian")) &&
      (TranslateOrigin(phase.origin, fun.origin) in steps <==> phase.origin != fun.origin) &&
      (RotateAxes(phase.axes, fun.axes) in steps <==> phase.axes != fun.axes) &&
      steps[|steps| - 1] == ConvertRep(if Moves(phase, fun) then Some(SC.Cartesian) else StringToEnum(phase.orbitStateRep),
                                       StringToEnum(fun.orbitStateRep)) &&
      (forall s :: s in steps[..|steps| - 1] ==> !s.ConvertRep?)
    ensures !Moves(phase, fun) ==>
      ConversionSteps(phase, fun) == [ConvertRep(StringToEnum(phase.orbitStateRep), StringToEnum(fun.orbitStateRep))]
  {
  }

  /** The outside functions the state path calls: unscaling, the origin
      translation (plain or through the ephemeris smoother), the axes
      rotation, the gravitational parameter of a body, and the conversions
      of StateConversions. */
  datatype StateEnv = StateEnv(
    unscale: ScaleFn,
    translate: (bool, string, string, seq<real>) -> seq<real>,
    rotate: (string, string, seq<real>) -> seq<real>,
    mu: string -> real,
    trig: SC.Trig)

  /** A stateTypes value as StateConv compares it: None (an unknown name)
      is equal only to None. */
  function EnumCode(o: Option<int>): int
  {
    match o
    case None => 0
    case Some(k) => k
  }

  /** unscaledState[a:b] = v: a vector of the slice's length replaces it,
      a one-element vector is broadcast, anything else is a ValueError. */
  function Assigned(x: seq<real>, v: seq<real>): Attempt<seq<real>>
  {
    if |v| == |x| then Got(v)
    else if |v| == 1 then Got(seq(|x|, _ => v[0]))
    else Raise(Broadcast(|v|, |x|))
  }

  function StepResult(s: Step, x: seq<real>, phase: PhaseConfig, fun: PhaseConfig, ephemType: string, env: StateEnv): Attempt<seq<real>>
  {
    match s
    case PivotToCartesian(from) => Converted(SC.StateConv(x, EnumCode(from), SC.Cartesian, env.mu(phase.origin), env.trig))
    case TranslateOrigin(a, b) =>
      Got(if ephemType == "Spice" then env.translate(false, a, b, x)
         else if ephemType == "Spline" then env.translate(true, a, b, x)
         else x)
    case RotateAxes(a, b) => Got(env.rotate(a, b, x))
    case ConvertRep(from, to) => Converted(SC.StateConv(x, EnumCode(from), EnumCode(to), env.mu(fun.origin), env.trig))
  }

  /** The orbit sub-state after the steps from the i-th on. */
  function ApplySteps(steps: seq<Step>, i: nat, x: seq<real>, phase: PhaseConfig, fun: PhaseConfig, ephemType: string, env: StateEnv): Attempt<seq<real>>
    requires i <= |steps|
    decreases |steps| - i
  {
    if i == |steps| then Got(x)
    else
      var y :- StepResult(steps[i], x, phase, fun, ephemType, env);
      var z :- Assigned(x, y);
      ApplySteps(steps, i + 1, z, phase, fun, ephemType, env)
  }

  /** A phase in the function's own frame and representation gets its
      orbit sub-state back unchanged, whatever the representation. */
  lemma SameFrameIsIdentity(phase: PhaseConfig, fun: PhaseConfig, x: seq<real>, ephemType: string, env: StateEnv)
    requires phase.origin == fun.origin && phase.axes == fun.axes && phase.orbitStateRep == fun.orbitStateRep
    ensures ApplySteps(ConversionSteps(phase, fun), 0, x, phase, fun, ephemType, env) == Got(x)
  {
    ConversionStepsRules(phase, fun);
    var e := EnumCode(StringToEnum(phase.orbitStateRep));
    SC.StateConvSameType(x, e, env.mu(fun.origin), env.trig);
  }

  /** Python's normalisation of the bounds of s[a:b] for a list of n. */
  function PyBounds(r: Range, n: nat): (b: (nat, nat))
    ensures b.0 <= b.1 <= n
  {
    var lo := if r.start < 0 then (if r.start + n < 0 then 0 else r.start + n) else if r.start > n then n else r.start;
    var hi := if r.end < 0 then (if r.end + n < 0 then 0 else r.end + n) else if r.end > n then n else r.end;
    if hi < lo then (lo, lo) else (lo, hi)
  }

  /** GetUnscaledStateForFun at a point: the requested sub-states unscaled,
      and the orbit sub-state, if requested, brought to the function's
      frame and representation. A point index with no configuration or no
      scaler is an IndexError; asking for the orbit before the function
      configuration is set is an AttributeError. */
  function UnscaledStateForFun(f: Fields, pointIdx: int, es: seq<string>, full: seq<real>, env: StateEnv): Attempt<seq<real>>
  {
    match (PyIndex(|f.phaseConfigs|, pointIdx), PyIndex(|f.phaseScalers|, pointIdx))
    case (None, _) => Raise(ListIndexOutOfRange)
    case (_, None) => Raise(ListIndexOutOfRange)
    case (Some(c), Some(s)) =>
      var phase := f.phaseConfigs[c];
      var sliced :- Slice(es, phase, full);
      var unscaled := env.unscale(f.phaseScalers[s], sliced.state, sliced.units);
      match sliced.orbit
      case None => Got(unscaled)
      case Some(r) =>
        match f.funConfig
        case None => Raise(NoOrigin)
        case Some(fun) =>
          var (a, b) := PyBounds(r, |unscaled|);
          var part :- ApplySteps(ConversionSteps(phase, fun), 0, unscaled[a..b], phase, fun, f.ephemType, env);
          Got(unscaled[..a] + part + unscaled[b..])
  }

  /** Without an orbit sub-state the result is the unscaled request; with
      one in the function's own frame and representation it is the same:
      only the frame or representation change alters the state. */
  lemma UnscaledStateRules(f: Fields, pointIdx: int, es: seq<string>, full: seq<real>, env: StateEnv)
    requires PyIndex(|f.phaseConfigs|, pointIdx).Some? && PyIndex(|f.phaseScalers|, pointIdx).Some?
    requires Slice(es, f.phaseConfigs[PyIndex(|f.phaseConfigs|, pointIdx).value], full).Got?
    ensures var phase := f.phaseConfigs[PyIndex(|f.phaseConfigs|, pointIdx).value];
      var sliced := Slice(es, phase, full).value;
      var unscaled := env.unscale(f.phaseScalers[PyIndex(|f.phaseScalers|, pointIdx).value], sliced.state, sliced.units);
      (sliced.orbit.None? || (f.funConfig.Some? && f.funConfig.value.origin == phase.origin &&
                              f.funConfig.value.axes == phase.axes &&
                              f.funConfig.value.orbitStateRep == phase.orbitStateRep))
      ==> UnscaledStateForFun(f, pointIdx, es, full, env) == Got(unscaled)
  {
    var phase := f.phaseConfigs[PyIndex(|f.phaseConfigs|, pointIdx).value];
    var sliced := Slice(es, phase, full).value;
    var unscaled := env.unscale(f.phaseScalers[PyIndex(|f.phaseScalers|, pointIdx).value], sliced.state, sliced.units);
    if sliced.orbit.Some? && f.funConfig.Some? && f.funConfig.value.origin == phase.origin &&
       f.funConfig.value.axes == phase.axes && f.funConfig.value.orbitStateRep == phase.orbitStateRep {
      var (a, b) := PyBounds(sliced.orbit.value, |unscaled|);
      SameFrameIsIdentity(phase, f.funConfig.value, unscaled[a..b], f.ephemType, env);
      assert unscaled[..a] + unscaled[a..b] + unscaled[b..] == unscaled;
    }
  }

  // ---------------------------------------------------------------------
  // Jacobian pieces

  function Zeros(n: nat): (v: seq<real>)
    ensures |v| == n && forall i :: 0 <= i < n ==> v[i] == 0.0
  {
    seq(n, _ => 0.0)
  }

  function MatAdd(x: Matrix, y: Matrix, a: nat, b: nat): (s: Matrix)
    requires IsRect(x, a, b) && IsRect(y, a, b)
    ensures IsRect(s, a, b)
  {
    seq(a, i requires 0 <= i < a => seq(b, j requires 0 <= j < b => x[i][j] + y[i][j]))
  }

  function MatVec(m: Matrix, v: seq<real>, a: nat, b: nat): (r: seq<real>)
    requires IsRect(m, a, b) && |v| == b
    ensures |r| == a
  {
    seq(a, i requires 0 <= i < a => EKF.Dot(m[i], v))
  }

  function VecAdd(u: seq<real>, v: seq<real>): (r: seq<real>)
    requires |u| == |v|
    ensures |r| == |u|
  {
    seq(|u|, i requires 0 <= i < |u| => u[i] + v[i])
  }

  /** The Jacobians the orbit path chains: to Cartesian (JC), origin
      translation (JO, with its time partial), axes rotation (JA, with its
      time partial), to the function's representation (JR), and the time
      partials of the orbit sub-state before (PT) and after (PF). */
  datatype OrbitPieces = OrbitPieces(jc: Matrix, pc: seq<real>, jo: Matrix, po: seq<real>,
                                     ja: Matrix, pa: seq<real>, jr: Matrix, pt: seq<real>, pf: seq<real>)
  {
    predicate Valid()
    {
      IsRect(jc, 6, 6) && IsRect(jo, 6, 6) && IsRect(ja, 6, 6) && IsRect(jr, 6, 6) &&
      |pc| == 6 && |po| == 6 && |pa| == 6 && |pt| == 6 && |pf| == 6
    }
  }

  /** The values the outside helpers give at the point: StateConvJacobian
      to Cartesian and to the function's representation, the translation's
      Jacobian and time partial, and DecVecTimeDerivatives before and after. */
  datatype JacobianEnv = JacobianEnv(toCartesian: Matrix, origin: Matrix, originTime: seq<real>,
                                     toFunctionRep: Matrix, phaseTime: seq<real>, functionTime: seq<real>)
  {
    predicate Valid()
    {
      IsRect(toCartesian, 6, 6) && IsRect(origin, 6, 6) && IsRect(toFunctionRep, 6, 6) &&
      |originTime| == 6 && |phaseTime| == 6 && |functionTime| == 6
    }
  }

  /** The pieces as the Jacobian function chooses them: JC is the identity
      unless the state had to be pivoted to Cartesian; JO and its partial
      are zero for equal origins; JA is always the identity with a zero
      time partial (the axes rotation is not written yet). */
  function Pieces(phase: PhaseConfig, fun: PhaseConfig, je: JacobianEnv): (p: OrbitPieces)
    requires je.Valid()
    ensures p.Valid()
  {
    var pivot := Moves(phase, fun) && !Contains(phase.orbitStateRep, "Cartesian");
    OrbitPieces(if pivot then je.toCartesian else Identity(6), Zeros(6),
                if phase.origin != fun.origin then je.origin else Zero(6, 6),
                if phase.origin != fun.origin then je.originTime else Zeros(6),
                Identity(6), Zeros(6), je.toFunctionRep, je.phaseTime, je.functionTime)
  }

  /** Whatever the frames, the axes piece is the identity with a zero time
      partial and the partial of the pivot is zero; JC is the identity
      unless the state is pivoted, and JO is the translation's Jacobian
      exactly when the origins differ. */
  lemma PiecesRules(phase: PhaseConfig, fun: PhaseConfig, je: JacobianEnv)
    requires je.Valid()
    ensures var p := Pieces(phase, fun, je);
      p.ja == Identity(6) && p.pa == Zeros(6) && p.pc == Zeros(6) &&
      p.jc == (if Moves(phase, fun) && !Contains(phase.orbitStateRep, "Cartesian") then je.toCartesian else Identity(6)) &&
      (phase.origin != fun.origin ==> p.jo == je.origin && p.po == je.originTime) &&
      p.jr == je.toFunctionRep && p.pt == je.phaseTime && p.pf == je.functionTime
  {
  }

  /** JR (JA (JO JC + JC)). */
  function OrbitBlock(p: OrbitPieces): (m: Matrix)
    requires p.Valid()
    ensures IsRect(m, 6, 6)
  {
    EKF.MatMul(p.jr, EKF.MatMul(p.ja, MatAdd(EKF.MatMul(p.jo, p.jc, 6, 6, 6), p.jc, 6, 6), 6, 6, 6), 6, 6, 6)
  }

  /** JR (JA (JO (JC PT + PT) + PC + PO) + PA) + PF. */
  function TimeBlock(p: OrbitPieces): (v: seq<real>)
    requires p.Valid()
    ensures |v| == 6
  {
    var parens1 := VecAdd(MatVec(p.jc, p.pt, 6, 6), p.pt);
    var parens2 := VecAdd(VecAdd(MatVec(p.jo, parens1, 6, 6), p.pc), p.po);
    var parens3 := VecAdd(MatVec(p.ja, parens2, 6, 6), p.pa);
    VecAdd(MatVec(p.jr, parens3, 6, 6), p.pf)
  }

  lemma {:induction false} DotZero(u: seq<real>, v: seq<real>)
    requires |u| == |v|
    requires (forall i :: 0 <= i < |u| ==> u[i] == 0.0) || (forall i :: 0 <= i < |v| ==> v[i] == 0.0)
    ensures EKF.Dot(u, v) == 0.0
  {
    if u != [] {
      DotZero(u[..|u| - 1], v[..|v| - 1]);
    }
  }

  lemma {:induction false} DotUnit(u: seq<real>, v: seq<real>, k: nat)
    requires |u| == |v| && k < |u|
    requires forall i :: 0 <= i < |u| ==> u[i] == if i == k then 1.0 else 0.0
    ensures EKF.Dot(u, v) == v[k]
  {
    var n := |u| - 1;
    if k == n {
      DotZero(u[..n], v[..n]);
    } else {
      DotUnit(u[..n], v[..n], k);
    }
  }

  /** The identity and the zero matrix act as they should on 6x6 pieces. */
  lemma IdentityAndZeroProducts(y: Matrix, v: seq<real>)
    requires IsRect(y, 6, 6) && |v| == 6
    ensures EKF.MatMul(Identity(6), y, 6, 6, 6) == y
    ensures EKF.MatMul(Zero(6, 6), y, 6, 6, 6) == Zero(6, 6)
    ensures MatAdd(Zero(6, 6), y, 6, 6) == y
    ensures MatVec(Zero(6, 6), v, 6, 6) == Zeros(6)
    ensures MatVec(y, Zeros(6), 6, 6) == Zeros(6)
    ensures MatVec(Identity(6), v, 6, 6) == v
  {
    var p := EKF.MatMul(Identity(6), y, 6, 6, 6);
    forall i, j | 0 <= i < 6 && 0 <= j < 6
      ensures p[i][j] == y[i][j]
    {
      var col := seq(6, k requires 0 <= k < 6 => y[k][j]);
      DotUnit(Identity(6)[i], col, i);
    }
    MatrixExt(p, y, 6, 6);
    var z := EKF.MatMul(Zero(6, 6), y, 6, 6, 6);
    forall i, j | 0 <= i < 6 && 0 <= j < 6
      ensures z[i][j] == 0.0
    {
      DotZero(Zero(6, 6)[i], seq(6, k requires 0 <= k < 6 => y[k][j]));
    }
    MatrixExt(z, Zero(6, 6), 6, 6);
    MatrixExt(MatAdd(Zero(6, 6), y, 6, 6), y, 6, 6);
    forall i | 0 <= i < 6
      ensures MatVec(Zero(6, 6), v, 6, 6)[i] == 0.0 && MatVec(y, Zeros(6), 6, 6)[i] == 0.0
      ensures MatVec(Identity(6), v, 6, 6)[i] == v[i]
    {
      DotZero(Zero(6, 6)[i], v);
      DotZero(y[i], Zeros(6));
      DotUnit(Identity(6)[i], v, i);
    }
  }

  /** With equal origins the origin Jacobian is zero and the axes Jacobian
      the identity, so the orbit block is JR JC; the time column is then
      PF alone, since the zero origin Jacobian also removes the time
      partials of the decision vector. */
  lemma EqualOriginsBlock(phase: PhaseConfig, fun: PhaseConfig, je: JacobianEnv)
    requires je.Valid() && phase.origin == fun.origin
    ensures var p := Pieces(phase, fun, je);
      p.jo == Zero(6, 6) && p.po == Zeros(6) && p.ja == Identity(6) && p.pa == Zeros(6) &&
      OrbitBlock(p) == EKF.MatMul(p.jr, p.jc, 6, 6, 6) &&
      TimeBlock(p) == p.pf
  {
    var p := Pieces(phase, fun, je);
    IdentityAndZeroProducts(p.jc, p.pt);
    var inner := MatAdd(EKF.MatMul(p.jo, p.jc, 6, 6, 6), p.jc, 6, 6);
    assert inner == p.jc;
    IdentityAndZeroProducts(inner, Zeros(6));
    var parens1 := VecAdd(MatVec(p.jc, p.pt, 6, 6), p.pt);
    IdentityAndZeroProducts(p.jc, parens1);
    var parens2 := VecAdd(VecAdd(MatVec(p.jo, parens1, 6, 6), p.pc), p.po);
    assert parens2 == Zeros(6);
    IdentityAndZeroProducts(p.jr, parens2);
    var parens3 := VecAdd(MatVec(p.ja, parens2, 6, 6), p.pa);
    assert parens3 == Zeros(6);
    assert VecAdd(MatVec(p.jr, parens3, 6, 6), p.pf) == p.pf;
  }

  // ---------------------------------------------------------------------
  // Jacobian layout

  datatype Jacobians = Jacobians(wrtVars: Matrix, wrtTime: seq<real>)

  /** jacFuncVarsWrtPhaseVars[m, m] = 1.0 in an n-by-n array: where that
      lands, or numpy's IndexError. */
  function MassPoint(n: nat, mass: Option<int>): Attempt<Option<nat>>
  {
    match mass
    case None => Got(None)
    case Some(m) =>
      match PyIndex(n, m)
      case Some(k) => Got(Some(k))
      case None => Raise(MassOutOfBounds(m, n))
  }

  /** jac[a:b, a:b] = block (6x6): where the block starts, or numpy's
      ValueError when the slice is not 6 wide. */
  function OrbitPoint(n: nat, r: Range): Attempt<nat>
  {
    var (a, b) := PyBounds(r, n);
    if b - a == 6 then Got(a) else Raise(BlockShape(b - a))
  }

  /** Whether (i, k) is inside the 6x6 block at a. */
  predicate InBlock(at: Option<nat>, i: nat, k: nat)
  {
    at.Some? && at.value <= i < at.value + 6 && at.value <= k < at.value + 6
  }

  /** The Jacobians: zero, a 1 on the mass diagonal, then the orbit block
      and its time column written over them. */
  function Layout(n: nat, mass: Option<nat>, at: Option<nat>, block: Matrix, time: seq<real>): (j: Jacobians)
    requires IsRect(block, 6, 6) && |time| == 6
    requires at.Some? ==> at.value + 6 <= n
    ensures IsRect(j.wrtVars, n, n) && |j.wrtTime| == n
  {
    Jacobians(
      seq(n, i requires 0 <= i < n => seq(n, k requires 0 <= k < n =>
        if InBlock(at, i, k) then block[i - at.value][k - at.value]
        else if mass == Some(i) && i == k then 1.0 else 0.0)),
      seq(n, i requires 0 <= i < n =>
        if at.Some? && at.value <= i < at.value + 6 then time[i - at.value] else 0.0))
  }

  function JacobianLayout(n: nat, mass: Option<int>, orbit: Option<Range>, block: Matrix, time: seq<real>): Attempt<Jacobians>
    requires IsRect(block, 6, 6) && |time| == 6
  {
    var m :- MassPoint(n, mass);
    match orbit
    case None => Got(Layout(n, m, None, block, time))
    case Some(r) =>
      var a :- OrbitPoint(n, r);
      Got(Layout(n, m, Some(a), block, time))
  }

  /** The Jacobian is n-by-n and starts at zero: an entry outside the orbit
      block is 1 on the mass diagonal and 0 everywhere else, the block
      holds the orbit Jacobian, and the time column is zero outside the
      block. It fails exactly when the mass index is outside the state or
      the orbit slice is not 6 wide. */
  lemma JacobianLayoutRules(n: nat, mass: Option<int>, orbit: Option<Range>, block: Matrix, time: seq<real>)
    requires IsRect(block, 6, 6) && |time| == 6
    ensures JacobianLayout(n, mass, orbit, block, time).Raise? <==>
      (mass.Some? && PyIndex(n, mass.value).None?) ||
      (orbit.Some? && PyBounds(orbit.value, n).1 - PyBounds(orbit.value, n).0 != 6)
    ensures JacobianLayout(n, mass, orbit, block, time).Got? ==>
      var j := JacobianLayout(n, mass, orbit, block, time).value;
      var m := if mass.Some? then PyIndex(n, mass.value) else None;
      var at := if orbit.Some? then Some(PyBounds(orbit.value, n).0) else None;
      IsRect(j.wrtVars, n, n) && |j.wrtTime| == n &&
      (forall i, k :: 0 <= i < n && 0 <= k < n && !InBlock(at, i, k) ==>
         j.wrtVars[i][k] == if m == Some(i) && i == k then 1.0 else 0.0) &&
      (forall i, k :: 0 <= i < n && 0 <= k < n && InBlock(at, i, k) ==>
         j.wrtVars[i][k] == block[i - at.value][k - at.value]) &&
      (forall i :: 0 <= i < n && !(at.Some? && at.value <= i < at.value + 6) ==> j.wrtTime[i] == 0.0)
  {
  }

  /** The n-by-n array holds zeros with a 1 on the mass diagonal. */
  ghost predicate MassOnly(jac: array2<real>, m: Option<nat>)
    reads jac
  {
    forall i, k :: 0 <= i < jac.Length0 && 0 <= k < jac.Length1 ==>
      jac[i, k] == if m == Some(i) && i == k then 1.0 else 0.0
  }

  /** jac[a:a+6, a:a+6] = block, row by row. */
  method WriteBlock(jac: array2<real>, a: nat, m: Option<nat>, block: Matrix, time: seq<real>)
    requires IsRect(block, 6, 6) && |time| == 6
    requires jac.Length0 == jac.Length1 && a + 6 <= jac.Length0 && MassOnly(jac, m)
    modifies jac
    ensures MatrixOf(jac) == Layout(jac.Length0, m, Some(a), block, time).wrtVars
  {
    var n := jac.Length0;
    var p := 0;
    while p < 6
      invariant 0 <= p <= 6
      invariant forall i, k :: 0 <= i < n && 0 <= k < n ==>
        jac[i, k] == if a <= i < a + p && a <= k < a + 6 then block[i - a][k - a]
                     else if m == Some(i) && i == k then 1.0 else 0.0
    {
      var q := 0;
      while q < 6
        invariant 0 <= q <= 6
        invariant forall i, k :: 0 <= i < n && 0 <= k < n ==>
          jac[i, k] == if (a <= i < a + p && a <= k < a + 6) || (i == a + p && a <= k < a + q) then block[i - a][k - a]
                       else if m == Some(i) && i == k then 1.0 else 0.0
      {
        jac[a + p, a + q] := block[p][q];
        q := q + 1;
      }
      p := p + 1;
    }
    MatrixExt(MatrixOf(jac), Layout(n, m, Some(a), block, time).wrtVars, n, n);
  }

  lemma MassOnlyIsLayout(jac: array2<real>, m: Option<nat>, block: Matrix, time: seq<real>)
    requires IsRect(block, 6, 6) && |time| == 6
    requires jac.Length0 == jac.Length1 && MassOnly(jac, m)
    ensures MatrixOf(jac) == Layout(jac.Length0, m, None, block, time).wrtVars
  {
    MatrixExt(MatrixOf(jac), Layout(jac.Length0, m, None, block, time).wrtVars, jac.Length0, jac.Length0);
  }

  lemma TimeIsLayout(dt: array<real>, m: Option<nat>, at: Option<nat>, block: Matrix, time: seq<real>)
    requires IsRect(block, 6, 6) && |time| == 6
    requires at.Some? ==> at.value + 6 <= dt.Length
    requires forall i :: 0 <= i < dt.Length ==> dt[i] == if at.Some? && at.value <= i < at.value + 6 then time[i - at.value] else 0.0
    ensures dt[..] == Layout(dt.Length, m, at, block, time).wrtTime
  {
  }

  /** jacT[a:a+6] = time. */
  method WriteTime(dt: array<real>, a: nat, time: seq<real>)
    requires |time| == 6 && a + 6 <= dt.Length
    requires forall i :: 0 <= i < dt.Length ==> dt[i] == 0.0
    modifies dt
    ensures forall i :: 0 <= i < dt.Length ==> dt[i] == if a <= i < a + 6 then time[i - a] else 0.0
  {
    var p := 0;
    while p < 6
      invariant 0 <= p <= 6
      invariant forall i :: 0 <= i < dt.Length ==> dt[i] == if a <= i < a + p then time[i - a] else 0.0
    {
      dt[a + p] := time[p];
      p := p + 1;
    }
  }

  /** Zero arrays, the mass diagonal, then the orbit block and its time
      column. */
  method FillJacobian(n: nat, m: Option<nat>, at: Option<nat>, block: Matrix, time: seq<real>)
      returns (jac: array2<real>, dt: array<real>)
    requires IsRect(block, 6, 6) && |time| == 6
    requires (m.Some? ==> m.value < n) && (at.Some? ==> at.value + 6 <= n)
    ensures fresh(jac) && fresh(dt)
    ensures MatrixOf(jac) == Layout(n, m, at, block, time).wrtVars && dt[..] == Layout(n, m, at, block, time).wrtTime
  {
    jac := new real[n, n]((i, k) => 0.0);
    dt := new real[n](_ => 0.0);
    if m.Some? {
      jac[m.value, m.value] := 1.0;
    }
    assert MassOnly(jac, m);
    if at.None? {
      MassOnlyIsLayout(jac, m, block, time);
    } else {
      WriteBlock(jac, at.value, m, block, time);
      WriteTime(dt, at.value, time);
    }
    TimeIsLayout(dt, m, at, block, time);
  }

  /** The arrays GMAT fills, or the error numpy raises first. */
  method LayOutJacobian(n: nat, mass: Option<int>, orbit: Option<Range>, block: Matrix, time: seq<real>)
      returns (r: Option<PyError>, jac: array2<real>, dt: array<real>)
    requires IsRect(block, 6, 6) && |time| == 6
    ensures match JacobianLayout(n, mass, orbit, block, time)
      case Raise(e) => r == Some(e)
      case Got(j) => r == None && MatrixOf(jac) == j.wrtVars && dt[..] == j.wrtTime
  {
    var mp := MassPoint(n, mass);
    var at: Option<nat> := None;
    if orbit.Some? {
      var op := OrbitPoint(n, orbit.value);
      if mp.Got? && op.Raise? {
        jac, dt := new real[0, 0], new real[0];
        return Some(op.error), jac, dt;
      }
      at := if op.Got? then Some(op.value) else None;
    }
    if mp.Raise? {
      jac, dt := new real[0, 0], new real[0];
      return Some(mp.error), jac, dt;
    }
    jac, dt := FillJacobian(n, mp.value, at, block, time);
    r := None;
  }

  /** GetUnscaledJacobianOfFunVarsWrtDecVarsAndTime, with the mass index
      taken from the returned state (asWritten false) or, as GMAT
      does, from the full decision vector (asWritten true). The mass entry
      is written before the function configuration is looked at. */
  function JacobianFor(f: Fields, pointIdx: int, es: seq<string>, full: seq<real>, env: StateEnv, je: JacobianEnv, asWritten: bool): Attempt<Jacobians>
    requires je.Valid()
  {
    match (PyIndex(|f.phaseConfigs|, pointIdx), PyIndex(|f.phaseScalers|, pointIdx))
    case (None, _) => Raise(ListIndexOutOfRange)
    case (_, None) => Raise(ListIndexOutOfRange)
    case (Some(c), Some(s)) =>
      var phase := f.phaseConfigs[c];
      var sliced :- Slice(es, phase, full);
      var n := |env.unscale(f.phaseScalers[s], sliced.state, sliced.units)|;
      var mass := if asWritten then sliced.massFull
                  else match sliced.massLocal case None => None case Some(r) => Some(r.start);
      var m :- MassPoint(n, mass);
      match sliced.orbit
      case None => Got(Layout(n, m, None, Identity(6), Zeros(6)))
      case Some(r) =>
        match f.funConfig
        case None => Raise(NoOrigin)
        case Some(fun) =>
          var a :- OrbitPoint(n, r);
          var p := Pieces(phase, fun, je);
          Got(Layout(n, m, Some(a), OrbitBlock(p), TimeBlock(p)))
  }

  /** With DecVecData [OrbitState (6), TotalMass (1)] and only TotalMass
      requested, the returned state has one entry but GMAT puts the
      mass at index 6, the offset in the full vector, and numpy raises an
      IndexError; taken from the returned state the index is 0 and the
      Jacobian is [[1.0]]. */
  lemma SelectedMassIndexFinding(env: StateEnv, je: JacobianEnv)
    requires je.Valid()
    requires forall sc, x, u :: |env.unscale(sc, x, u)| == |x|
    ensures var cfg := PhaseConfig([SubState("OrbitState", 6), SubState("TotalMass", 1)],
                                   ["km", "km", "km", "km/s", "km/s", "km/s", "kg"], "Earth", "EarthMJ2000Eq", "Cartesian");
      var f := Fields([cfg], [Scaler(0)], None, None, [], [], map[], "Spice");
      var full := [7000.0, 0.0, 0.0, 0.0, 7.5, 0.0, 1000.0];
      Slice(["TotalMass"], cfg, full) == Got(Sliced([1000.0], ["kg"], None, Some(6), Some(Range(0, 1)))) &&
      JacobianFor(f, 0, ["TotalMass"], full, env, je, true) == Raise(MassOutOfBounds(6, 1)) &&
      JacobianFor(f, 0, ["TotalMass"], full, env, je, false) == Got(Jacobians([[1.0]], [0.0]))
  {
    var cfg := PhaseConfig([SubState("OrbitState", 6), SubState("TotalMass", 1)],
                           ["km", "km", "km", "km/s", "km/s", "km/s", "kg"], "Earth", "EarthMJ2000Eq", "Cartesian");
    var full := [7000.0, 0.0, 0.0, 0.0, 7.5, 0.0, 1000.0];
    var data := cfg.decVecData;
    assert "TotalMass" != "OrbitState";
    var a1 := PickFrom("TotalMass", data, 1, 6, full, cfg.units, NothingSliced);
    assert a1 == Sliced([1000.0], ["kg"], None, Some(6), Some(Range(0, 1))) by {
      assert PySlice(full, 6, 7) == [1000.0];
      assert PySlice(cfg.units, 6, 7) == ["kg"];
    }
    assert PickFrom("TotalMass", data, 0, 0, full, cfg.units, NothingSliced) == a1;
    var l := Layout(1, Some(0), None, Identity(6), Zeros(6));
    assert l.wrtVars[0] == [1.0];
    assert l.wrtVars == [[1.0]];
    assert l.wrtTime == [0.0];
  }

  /** The Jacobian with the mass index from the returned state: when the
      decision vector is as long as its sub-states say and every TotalMass
      sub-state has at least one entry, the mass entry never fails. */
  lemma CorrectedMassIndexInRange(es: seq<string>, cfg: PhaseConfig, full: seq<real>)
    requires Offset(cfg.decVecData, |cfg.decVecData|) <= |full|
    requires forall k :: 0 <= k < |cfg.decVecData| && cfg.decVecData[k].name == MassName ==> cfg.decVecData[k].size > 0
    requires Slice(es, cfg, full).Got? && Slice(es, cfg, full).value.massLocal.Some?
    ensures var s := Slice(es, cfg, full).value;
      0 <= s.massLocal.value.start < |s.state| &&
      MassPoint(|s.state|, Some(s.massLocal.value.start)) == Got(Some(s.massLocal.value.start))
  {
    SliceRanges(es, cfg, full);
  }

  // ---------------------------------------------------------------------
  // The function object

  class GMATFunction {
    var phaseConfigs: seq<PhaseConfig>
    var phaseScalers: seq<Scaler>
    var funConfig: Option<PhaseConfig>
    var funScaler: Option<Scaler>
    var funLBScaled: seq<real>
    var funUBScaled: seq<real>
    var customSettings: map<string, string>
    var ephemType: string

    function Snap(): Fields
      reads this
    {
      Fields(phaseConfigs, phaseScalers, funConfig, funScaler, funLBScaled, funUBScaled, customSettings, ephemType)
    }

    method Store(g: Fields)
      modifies this
      ensures Snap() == g
    {
      phaseConfigs, phaseScalers, funConfig, funScaler := g.phaseConfigs, g.phaseScalers, g.funConfig, g.funScaler;
      funLBScaled, funUBScaled, customSettings, ephemType := g.funLBScaled, g.funUBScaled, g.customSettings, g.ephemType;
    }

    /** Empty lists and settings, Spice ephemerides. */
    constructor()
      ensures Snap() == Fields([], [], None, None, [], [], map[], "Spice")
    {
      phaseConfigs, phaseScalers, funConfig, funScaler := [], [], None, None;
      funLBScaled, funUBScaled, customSettings, ephemType := [], [], map[], "Spice";
    }

    method SetPhaseConfig(pointIdx: int, phaseConfig: PhaseConfig, insertionType: string) returns (r: Option<PyError>)
      modifies this
      ensures match Place(old(phaseConfigs), pointIdx, phaseConfig, insertionType)
        case Got(s) => r == None && Snap() == old(Snap()).(phaseConfigs := s)
        case Raise(e) => r == Some(e) && Snap() == old(Snap())
    {
      var p := Place(phaseConfigs, pointIdx, phaseConfig, insertionType);
      if p.Raise? {
        return Some(p.error);
      }
      phaseConfigs := p.value;
      return None;
    }

    method SetPhaseScaler(pointIdx: int, scaler: Scaler, insertionType: string) returns (r: Option<PyError>)
      modifies this
      ensures match Place(old(phaseScalers), pointIdx, scaler, insertionType)
        case Got(s) => r == None && Snap() == old(Snap()).(phaseScalers := s)
        case Raise(e) => r == Some(e) && Snap() == old(Snap())
    {
      var p := Place(phaseScalers, pointIdx, scaler, insertionType);
      if p.Raise? {
        return Some(p.error);
      }
      phaseScalers := p.value;
      return None;
    }

    method SetFunConfig(c: PhaseConfig)
      modifies this
      ensures Snap() == old(Snap()).(funConfig := Some(c))
    {
      funConfig := Some(c);
    }

    method SetFunScaler(s: Scaler)
      modifies this
      ensures Snap() == old(Snap()).(funScaler := Some(s))
    {
      funScaler := Some(s);
    }

    method SetEphemType(t: string)
      modifies this
      ensures Snap() == old(Snap()).(ephemType := t)
    {
      ephemType := t;
    }

    method SetFunBounds(lb: seq<real>, ub: seq<real>, scale: ScaleFn) returns (r: Option<PyError>)
      modifies this
      ensures match BoundsSet(old(Snap()), lb, ub, scale)
        case Got(g) => r == None && Snap() == g
        case Raise(e) => r == Some(e) && Snap() == old(Snap())
    {
      var b := BoundsSet(Snap(), lb, ub, scale);
      if b.Raise? {
        return Some(b.error);
      }
      funLBScaled, funUBScaled := b.value.funLBScaled, b.value.funUBScaled;
      return None;
    }

    function GetFunBoundsScaled(): (seq<real>, seq<real>)
      reads this
    {
      (funLBScaled, funUBScaled)
    }

    method SetCustomSetting(key: string, value: string)
      modifies this
      ensures Snap() == old(Snap()).(customSettings := old(customSettings)[key := value])
    {
      customSettings := customSettings[key := value];
    }

    function GetCustomSetting(key: string): Attempt<string>
      reads this
    {
      SettingOf(customSettings, key)
    }

    /** GetUnscaledStateForFun at a point whose full decision vector is
        stateFull. */
    method GetUnscaledStateForFun(pointIdx: int, returnElements: seq<string>, stateFull: seq<real>, env: StateEnv)
        returns (r: Attempt<seq<real>>)
      ensures r == UnscaledStateForFun(Snap(), pointIdx, returnElements, stateFull, env)
    {
      var c := PyIndex(|phaseConfigs|, pointIdx);
      var s := PyIndex(|phaseScalers|, pointIdx);
      if c.None? || s.None? {
        return Raise(ListIndexOutOfRange);
      }
      var phase := phaseConfigs[c.value];
      var sliced := SliceState(returnElements, phase, stateFull);
      if sliced.Raise? {
        return Raise(sliced.error);
      }
      var unscaled := env.unscale(phaseScalers[s.value], sliced.value.state, sliced.value.units);
      if sliced.value.orbit.None? {
        return Got(unscaled);
      }
      if funConfig.None? {
        return Raise(NoOrigin);
      }
      var (a, b) := PyBounds(sliced.value.orbit.value, |unscaled|);
      var part := ApplySteps(ConversionSteps(phase, funConfig.value), 0, unscaled[a..b], phase, funConfig.value, ephemType, env);
      if part.Raise? {
        return Raise(part.error);
      }
      return Got(unscaled[..a] + part.value + unscaled[b..]);
    }

    /** GetUnscaledJacobianOfFunVarsWrtDecVarsAndTime at a point, with the
        mass index taken from the returned state. */
    method GetUnscaledJacobian(pointIdx: int, returnElements: seq<string>, stateFull: seq<real>, env: StateEnv, je: JacobianEnv)
        returns (r: Attempt<Jacobians>)
      requires je.Valid()
      ensures r == JacobianFor(Snap(), pointIdx, returnElements, stateFull, env, je, false)
    {
      var c := PyIndex(|phaseConfigs|, pointIdx);
      var s := PyIndex(|phaseScalers|, pointIdx);
      if c.None? || s.None? {
        return Raise(ListIndexOutOfRange);
      }
      var phase := phaseConfigs[c.value];
      var sliced := SliceState(returnElements, phase, stateFull);
      if sliced.Raise? {
        return Raise(sliced.error);
      }
      var n := |env.unscale(phaseScalers[s.value], sliced.value.state, sliced.value.units)|;
      var mass := match sliced.value.massLocal case None => None case Some(rg) => Some(rg.start);
      var m := MassPoint(n, mass);
      if m.Raise? {
        return Raise(m.error);
      }
      if sliced.value.orbit.None? {
        return Got(Layout(n, m.value, None, Identity(6), Zeros(6)));
      }
      if funConfig.None? {
        return Raise(NoOrigin);
      }
      var a := OrbitPoint(n, sliced.value.orbit.value);
      if a.Raise? {
        return Raise(a.error);
      }
      var p := Pieces(phase, funConfig.value, je);
      return Got(Layout(n, m.value, Some(a.value), OrbitBlock(p), TimeBlock(p)));
    }
  }
}
