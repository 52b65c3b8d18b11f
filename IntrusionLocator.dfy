/** The intrusion locator
    (plugins/EventLocatorPlugin/src/base/locator/IntrusionLocator.cpp): an
    event locator that finds when a body (the Sun, the Moon) comes into
    the field of view of the imagers a spacecraft carries, and samples
    each intrusion for its report.

    The model covers the locator's parameters and their checks, the
    sensor and intruding-body lists, renaming and clearing, the checks
    Initialize makes and the SPICE frame ids it gives the imagers, the
    epochs at which an intrusion is sampled, and the small computations
    made at each sample. Finding the intrusions themselves (SPICE geometry
    finders) and writing kernels and reports are outside the model. */
module IntrusionLocatorModel {
  import opened Common
  import ContactLocatorModel

  // ---------------------------------------------------------------------
  // Parameters

  /** The locator's own parameters, and any parameter the base class
      handles, by its id there. */
  datatype IntrusionParam =
    | Sensors | CentralBody | IntrudingBodies | MinimumPhase
    | ReportCoordinates | SpiceGridFrameFile
    | Inherited(id: int)

  /** GetParameterText: an own parameter's scripted name, or the base
      class's name. */
  function ParameterText(p: IntrusionParam, baseText: int -> string): string
  {
    match p
    case Sensors => "Sensors"
    case CentralBody => "CentralBody"
    case IntrudingBodies => "IntrudingBodies"
    case MinimumPhase => "MinimumPhase"
    case ReportCoordinates => "ReportCoordinates"
    case SpiceGridFrameFile => "SpiceGridFrameFile"
    case Inherited(id) => baseText(id)
  }

  /** The search of the locator's own names, in the order of their ids. */
  function OwnParam(str: string): Option<IntrusionParam>
  {
    if str == "Sensors" then Some(Sensors)
    else if str == "CentralBody" then Some(CentralBody)
    else if str == "IntrudingBodies" then Some(IntrudingBodies)
    else if str == "MinimumPhase" then Some(MinimumPhase)
    else if str == "ReportCoordinates" then Some(ReportCoordinates)
    else if str == "SpiceGridFrameFile" then Some(SpiceGridFrameFile)
    else None
  }

  /** GetParameterID: the own names first, then the base class's. */
  function ParameterId(str: string, baseId: string -> int): IntrusionParam
  {
    match OwnParam(str)
    case Some(p) => p
    case None => Inherited(baseId(str))
  }

  /** The scripted name of every parameter of the locator's own gives that
      parameter back; a name the locator owns is the text of the parameter
      it finds, and any other name is the base class's. */
  lemma NamesRoundTrip(p: IntrusionParam, str: string, baseText: int -> string, baseId: string -> int)
    requires !p.Inherited?
    ensures ParameterId(ParameterText(p, baseText), baseId) == p
    ensures OwnParam(str).Some? ==> ParameterText(OwnParam(str).value, baseText) == str
    ensures OwnParam(str).None? ==> ParameterId(str, baseId) == Inherited(baseId(str))
  {
  }

  // ---------------------------------------------------------------------
  // The settings and their checks

  /** The fields of the locator the model follows; `results` counts the
      per-sensor intrusion results it holds. */
  datatype Fields = Fields(
    sensors: seq<string>,
    centralBody: string,
    bodies: seq<string>,
    minimumPhase: real,
    reportCoordinates: string,
    gridFrameFile: string,
    results: nat)

  function CoordinatesMessage(value: string, name: string): string
  {
    Text(["The value of \"", value, "\" for field \"ReportCoordinates\" on object \"", name,
          "\" is not an allowed value.\nThe allowed values are: [ SpacecraftOrigin, FixedGrid ]\n. "])
  }

  function CentralBodyMessage(value: string, name: string): string
  {
    Text(["The value of \"", value, "\" for field \"CentralBody\" on object \"", name,
          "\" is not an allowed value.\n\"Earth\" is the only allowed value in this release of GMAT"])
  }

  /** The message for a minimum phase out of range; `valueText` is the
      value as GmatStringUtil::ToString writes it. */
  function MinimumPhaseMessage(valueText: string, name: string): string
  {
    Text(["*** Error *** The value", valueText, "for field MinimumPhase on object \"", name,
          "\" is not an allowed value. Allowed values are [0.0 < Real < 1.0]"])
  }

  predicate IsCoordinates(value: string)
  {
    value == "SpacecraftOrigin" || value == "FixedGrid"
  }

  /** SetStringParameter: the report coordinates and the central body are
      checked, a sensor or intruding body name is appended unless already
      listed, and the grid frame file is taken as given; any other
      parameter goes to the base class, whose answer is returned. */
  function SetString(f: Fields, p: IntrusionParam, value: string, name: string, baseSet: bool): (Fields, Result<bool>)
  {
    match p
    case ReportCoordinates =>
      if IsCoordinates(value) then (f.(reportCoordinates := value), Ok(true))
      else (f, Err(CoordinatesMessage(value, name)))
    case Sensors => (f.(sensors := AddIfAbsent(f.sensors, value)), Ok(true))
    case CentralBody =>
      if value != "Earth" then (f, Err(CentralBodyMessage(value, name)))
      else (f.(centralBody := value), Ok(true))
    case IntrudingBodies => (f.(bodies := AddIfAbsent(f.bodies, value)), Ok(true))
    case SpiceGridFrameFile => (f.(gridFrameFile := value), Ok(true))
    case _ => (f, Ok(baseSet))
  }

  /** GetStringParameter: the report coordinates, the central body and the
      grid frame file; anything else is the base class's. */
  function GetString(f: Fields, p: IntrusionParam, baseValue: string): string
  {
    match p
    case ReportCoordinates => f.reportCoordinates
    case CentralBody => f.centralBody
    case SpiceGridFrameFile => f.gridFrameFile
    case _ => baseValue
  }

  /** The report coordinates are SpacecraftOrigin or FixedGrid: any other
      value is refused with the message that names it, leaving the fields
      alone, and an accepted value reads back. */
  lemma CoordinatesSetterRule(f: Fields, value: string, name: string, baseSet: bool, baseValue: string)
    ensures var (g, r) := SetString(f, ReportCoordinates, value, name, baseSet);
      && (r.Ok? <==> IsCoordinates(value))
      && (r.Ok? ==> g == f.(reportCoordinates := value) && GetString(g, ReportCoordinates, baseValue) == value)
      && (r.Err? ==> g == f && r.msg == CoordinatesMessage(value, name))
  {
  }

  /** The central body is Earth: any other value is refused with the
      message that names it, leaving the fields alone. */
  lemma CentralBodySetterRule(f: Fields, value: string, name: string, baseSet: bool, baseValue: string)
    ensures var (g, r) := SetString(f, CentralBody, value, name, baseSet);
      && (r.Ok? <==> value == "Earth")
      && (r.Ok? ==> g == f.(centralBody := "Earth") && GetString(g, CentralBody, baseValue) == "Earth")
      && (r.Err? ==> g == f && r.msg == CentralBodyMessage(value, name))
  {
  }

  /** A sensor or intruding-body name is always accepted, appended once:
      the list keeps no duplicate, holds the name afterwards, and keeps
      everything it held; the other list and the settings are untouched. */
  lemma NameListsAddOnce(f: Fields, value: string, name: string, baseSet: bool)
    requires NoDuplicates(f.sensors) && NoDuplicates(f.bodies)
    ensures var (g, r) := SetString(f, Sensors, value, name, baseSet);
      && r == Ok(true) && g == f.(sensors := g.sensors)
      && NoDuplicates(g.sensors) && value in g.sensors
      && g.sensors == (if value in f.sensors then f.sensors else f.sensors + [value])
    ensures var (g, r) := SetString(f, IntrudingBodies, value, name, baseSet);
      && r == Ok(true) && g == f.(bodies := g.bodies)
      && NoDuplicates(g.bodies) && value in g.bodies
      && g.bodies == (if value in f.bodies then f.bodies else f.bodies + [value])
  {
    AddIfAbsentKeepsDistinct(f.sensors, value);
    AddIfAbsentKeepsDistinct(f.bodies, value);
  }

  /** The grid frame file reads back as set, and a parameter of the base
      class leaves the fields alone with the base class's answer. */
  lemma OtherSetterRules(f: Fields, p: IntrusionParam, value: string, name: string, baseSet: bool, baseValue: string)
    ensures var (g, r) := SetString(f, SpiceGridFrameFile, value, name, baseSet);
      r == Ok(true) && g == f.(gridFrameFile := value) && GetString(g, SpiceGridFrameFile, baseValue) == value
    ensures p.Inherited? ==> SetString(f, p, value, name, baseSet) == (f, Ok(baseSet))
  {
  }

  /** SetRealParameter for the minimum phase: a value outside [0, 1] is
      refused; any other real parameter goes to the base class. */
  function SetReal(f: Fields, p: IntrusionParam, value: real, valueText: string, name: string, baseValue: real): (Fields, Result<real>)
  {
    if p == MinimumPhase then
      if value < 0.0 || value > 1.0 then (f, Err(MinimumPhaseMessage(valueText, name)))
      else (f.(minimumPhase := value), Ok(value))
    else (f, Ok(baseValue))
  }

  /** The minimum phase is accepted exactly when it lies in [0, 1], the
      end points included (the message says the interval is open); a
      refused value changes nothing. */
  lemma MinimumPhaseRange(f: Fields, value: real, valueText: string, name: string, baseValue: real)
    ensures var (g, r) := SetReal(f, MinimumPhase, value, valueText, name, baseValue);
      && (r.Ok? <==> 0.0 <= value <= 1.0)
      && (r.Ok? ==> g == f.(minimumPhase := value) && r.value == value)
      && (r.Err? ==> g == f && r.msg == MinimumPhaseMessage(valueText, name))
  {
  }

  // ---------------------------------------------------------------------
  // Indexed access to the sensor and intruding-body lists

  function SensorIndexMessage(name: string): string
  {
    Text(["Index out of range when trying to access sensor list for ", name])
  }

  function BodyIndexMessage(name: string): string
  {
    Text(["Index out of range when trying to access intruding body list for ", name])
  }

  /** The indexed getter as written: any index below the list's length is
      read, so a negative index passes (undefined in GMAT; here the first
      entry stands for whatever is read). */
  function GetAtAsWritten(list: seq<string>, index: int, message: string): Result<string>
  {
    if index < |list| then Ok(if 0 <= index then list[index] else if list != [] then list[0] else "")
    else Err(message)
  }

  /** The indexed getter: the entry at the index, and an exception with the
      list's message outside the list. */
  function GetAt(list: seq<string>, index: int, message: string): (r: Result<string>)
  {
    if 0 <= index < |list| then Ok(list[index]) else Err(message)
  }

  /** A negative index passes the range tests of the indexed getter and
      setter as written (the setter is the same rule as the contact
      locator's observer list): with one sensor, index -1 is read rather
      than refused, and a new body given at -1 is not appended; the
      corrected getter refuses and the corrected setter appends. */
  lemma NegativeListIndexPasses()
    ensures GetAtAsWritten(["Imager1"], -1, SensorIndexMessage("IL")).Ok?
    ensures GetAt(["Imager1"], -1, SensorIndexMessage("IL")) == Err(SensorIndexMessage("IL"))
    ensures ContactLocatorModel.SetObserverAsWritten(["Sun"], "Luna", -1).0 == ["Sun"]
    ensures ContactLocatorModel.SetObserver(["Sun"], "Luna", -1).0 == ["Sun", "Luna"]
  {
  }

  /** The corrected getter answers exactly inside the list, with the entry
      there, and reads back what the corrected setter wrote. */
  lemma {:induction false} GetAtRules(list: seq<string>, value: string, index: int, message: string)
    requires NoDuplicates(list)
    ensures GetAt(list, index, message).Ok? <==> 0 <= index < |list|
    ensures GetAt(list, index, message).Err? ==> GetAt(list, index, message).msg == message
    ensures value !in list && 0 <= index < |list| ==>
      GetAt(ContactLocatorModel.SetObserver(list, value, index).0, index, message) == Ok(value)
    ensures value !in list && !(0 <= index < |list|) ==>
      GetAt(ContactLocatorModel.SetObserver(list, value, index).0, |list|, message) == Ok(value)
    ensures NoDuplicates(ContactLocatorModel.SetObserver(list, value, index).0)
  {
    ContactLocatorModel.ObserverIndexRules(list, value, index, "");
  }

  // ---------------------------------------------------------------------
  // Renaming and clearing

  /** The list with its first entry of the old name renamed. */
  function RenameFirst(s: seq<string>, oldName: string, newName: string): (r: seq<string>)
  {
    if oldName in s then s[FirstIndex(s, oldName) := newName] else s
  }

  /** The kinds of reference object RenameRefObject is told about. */
  datatype RefType = Hardware | CelestialBodyType | UnknownObject | OtherType

  /** RenameRefObject: for hardware, the first sensor of the old name; for
      a celestial body, the central body, else the first intruding body;
      for an unknown type, a sensor, else the central body, else an
      intruding body. Renaming one returns true at once, without asking
      the base class; otherwise the base class's answer is returned. */
  function Rename(f: Fields, t: RefType, oldName: string, newName: string, baseRenamed: bool): (Fields, bool)
  {
    var sensorsFirst := t == Hardware || t == UnknownObject;
    var bodiesNext := t == CelestialBodyType || t == UnknownObject;
    if sensorsFirst && oldName in f.sensors then (f.(sensors := RenameFirst(f.sensors, oldName, newName)), true)
    else if bodiesNext && f.centralBody == oldName then (f.(centralBody := newName), true)
    else if bodiesNext && oldName in f.bodies then (f.(bodies := RenameFirst(f.bodies, oldName, newName)), true)
    else (f, baseRenamed)
  }

  /** Only the first entry of the old name is renamed: the list keeps its
      length, the entry at the first match takes the new name, every other
      entry is kept, so a second entry of the old name survives. */
  lemma RenameFirstOnly(s: seq<string>, oldName: string, newName: string)
    ensures |RenameFirst(s, oldName, newName)| == |s|
    ensures oldName !in s ==> RenameFirst(s, oldName, newName) == s
    ensures oldName in s ==>
      var k := FirstIndex(s, oldName);
      && RenameFirst(s, oldName, newName)[k] == newName
      && (forall j :: 0 <= j < k ==> s[j] != oldName)
      && (forall j :: 0 <= j < |s| && j != k ==> RenameFirst(s, oldName, newName)[j] == s[j])
  {
  }

  /** On a list without duplicates (as the setters keep them), renaming the
      first match renames every match: it agrees with the contact
      locator's rename-all. */
  lemma {:induction false} RenameFirstOnDistinct(s: seq<string>, oldName: string, newName: string)
    requires NoDuplicates(s)
    ensures RenameFirst(s, oldName, newName) == ContactLocatorModel.RenameAll(s, oldName, newName)
  {
    ContactLocatorModel.RenameRenamesEvery(s, ContactLocatorModel.UnknownType, oldName, newName, false);
    var r := RenameFirst(s, oldName, newName);
    var a := ContactLocatorModel.RenameAll(s, oldName, newName);
    forall j | 0 <= j < |s|
      ensures r[j] == a[j]
    {
      if oldName in s && s[j] == oldName {
        assert j == FirstIndex(s, oldName);
      }
    }
  }

  /** The order of the search: the first place that holds the old name is
      renamed and the later places are left alone, even when they hold the
      name too; the answer is true exactly when something was renamed here
      or the base class renamed something. */
  lemma RenameOrder(f: Fields, t: RefType, oldName: string, newName: string, baseRenamed: bool)
    ensures var (g, r) := Rename(f, t, oldName, newName, baseRenamed);
      && (t == Hardware ==> g.centralBody == f.centralBody && g.bodies == f.bodies)
      && (t == CelestialBodyType ==> g.sensors == f.sensors)
      && (t == OtherType ==> g == f && r == baseRenamed)
      && ((t == Hardware || t == UnknownObject) && oldName in f.sensors ==>
            g == f.(sensors := RenameFirst(f.sensors, oldName, newName)) && r)
      && ((t == CelestialBodyType || (t == UnknownObject && oldName !in f.sensors)) && f.centralBody == oldName ==>
            g == f.(centralBody := newName) && r)
      && (r <==> (baseRenamed || (t != OtherType &&
            ((t != CelestialBodyType && oldName in f.sensors) ||
             (t != Hardware && (f.centralBody == oldName || oldName in f.bodies))))))
  {
  }

  /** TakeAction("Clear", data) as written: "Sensors" or "" clears the
      sensors; the intrusion results are cleared only for "Events",
      because the test for "" sits in an else branch that "" never
      reaches. The answer is the base class's or whether a branch ran. */
  function ClearAsWritten(f: Fields, data: string, baseCleared: bool): (Fields, bool)
  {
    if data == "Sensors" || data == "" then (f.(sensors := []), true)
    else if data == "Events" || data == "" then (f.(results := 0), true)
    else (f, baseCleared)
  }

  /** TakeAction("Clear", data) as evidently meant: "Sensors" clears the
      sensors, "Events" the intrusion results, and "" both. */
  function Clear(f: Fields, data: string, baseCleared: bool): (Fields, bool)
  {
    var g := if data == "Sensors" || data == "" then f.(sensors := []) else f;
    var h := if data == "Events" || data == "" then g.(results := 0) else g;
    (h, data == "Sensors" || data == "Events" || data == "" || baseCleared)
  }

  /** With no data, the clear as written keeps the intrusion results, while
      the corrected clear empties both the sensors and the results. */
  lemma ClearAllKeepsResults(f: Fields)
    requires f.results > 0
    ensures ClearAsWritten(f, "", false).0.results == f.results
    ensures Clear(f, "", false).0.results == 0 && Clear(f, "", false).0.sensors == []
  {
  }

  /** The corrected clear empties exactly what it names, never the
      intruding bodies or the settings, and agrees with the clear as
      written for every data but "". */
  lemma ClearEmptiesWhatItNames(f: Fields, data: string, baseCleared: bool)
    ensures var g := Clear(f, data, baseCleared).0;
      && ((data == "Sensors" || data == "") ==> g.sensors == [])
      && ((data == "Events" || data == "") ==> g.results == 0)
      && (data != "Events" && data != "" ==> g.results == f.results)
      && (data != "Sensors" && data != "" ==> g.sensors == f.sensors)
      && g == f.(sensors := g.sensors, results := g.results)
    ensures data != "" ==> Clear(f, data, baseCleared) == ClearAsWritten(f, data, baseCleared)
  {
  }

  // ---------------------------------------------------------------------
  // Initialize: the imagers and their SPICE frames

  /** The shape of an imager's field of view. */
  datatype FovShape = Conical | Rectangular | OtherShape

  /** A sensor the locator resolved: its name and field of view. */
  datatype Imager = Imager(name: string, fov: FovShape)

  /** What Initialize sees around it: whether the base class initialised,
      the sensors resolved for the names (None for one left unset), whether
      the run mode is Disabled, the spacecraft's NAIF id and name and its
      hardware names in order, and whether the grid frame file holds a
      CLASS_ID line. */
  datatype IntrusionEnv = IntrusionEnv(
    baseInitialized: bool,
    resolved: seq<Option<Imager>>,
    runDisabled: bool,
    satId: int,
    satName: string,
    hardware: seq<string>,
    classIdFound: bool)

  /** Why Initialize throws. */
  datatype InitFault =
    | ImagersNotSet
    | NotAttached(imager: string)
    | OriginFrameUnsupported
    | NoClassId
    | UnknownFrame
    | UnsupportedFov(imager: string)

  function InitMessage(e: InitFault, f: Fields, name: string, satName: string): string
  {
    match e
    case ImagersNotSet => Text(["Error setting imagers on IntrusionLocator ", name, "\n"])
    case NotAttached(imager) =>
      Text(["Error setting imagers on IntrusionLocator ", name, ", Imager ", imager,
            " not attached to spacecraft ", satName, "\n"])
    case OriginFrameUnsupported =>
      Text(["Error generating SPICE frame for imager in IntrusionLocator::Initialize, ",
            "currently the spacecraft origin is not a supported.\n"])
    case NoClassId =>
      Text(["Error in IntrusionLocator::Initialize, the provided fixed grid frame file ",
            f.gridFrameFile, " does not contain a class ID.\n"])
    case UnknownFrame =>
      Text(["Error in IntrusionLocator::Initialize, unknown coordinate frame ", f.reportCoordinates,
            " being used to generate a SPICE frame for imager.\n"])
    case UnsupportedFov(imager) =>
      Text(["Error setting imagers on IntrusionLocator ", name, ", Imager ", imager,
            " is using an unsupported FOV shape. Allowable shapes are [Conical, Rectangular]"])
  }

  /** One imager's frame: it must be hardware of the spacecraft (its
      index there is h), the report coordinates must be FixedGrid with a
      class id in the grid frame file, and its field of view conical or
      rectangular; its frame id is the spacecraft's NAIF id times 1000,
      less h. */
  function SensorFrame(im: Option<Imager>, env: IntrusionEnv, coordinates: string): Result2<int, InitFault>
  {
    match im
    case None => Fault(ImagersNotSet)
    case Some(i) =>
      if i.name !in env.hardware then Fault(NotAttached(i.name))
      else if coordinates == "SpacecraftOrigin" then Fault(OriginFrameUnsupported)
      else if coordinates != "FixedGrid" then Fault(UnknownFrame)
      else if !env.classIdFound then Fault(NoClassId)
      else if i.fov == OtherShape then Fault(UnsupportedFov(i.name))
      else Done(env.satId * 1000 - FirstIndex(env.hardware, i.name))
  }

  /** A list of frames put in front of the frames that follow, or the
      fault that stopped them. */
  function Prepend(ids: seq<int>, rest: Result2<seq<int>, InitFault>): Result2<seq<int>, InitFault>
  {
    match rest
    case Fault(e) => Fault(e)
    case Done(more) => Done(ids + more)
  }

  /** Nothing put in front changes nothing, and two lists put in front one
      after the other are their join put in front. */
  lemma PrependJoins(a: seq<int>, b: seq<int>, rest: Result2<seq<int>, InitFault>)
    ensures Prepend([], rest) == rest
    ensures Prepend(a, Prepend(b, rest)) == Prepend(a + b, rest)
  {
    if rest.Done? {
      assert [] + rest.value == rest.value;
      assert a + (b + rest.value) == (a + b) + rest.value;
    }
  }

  /** The frames of the imagers in order, or the first imager's fault. */
  function FramesFor(ims: seq<Option<Imager>>, env: IntrusionEnv, coordinates: string): Result2<seq<int>, InitFault>
    decreases |ims|
  {
    if ims == [] then Done([])
    else match SensorFrame(ims[0], env, coordinates)
      case Fault(e) => Fault(e)
      case Done(id) =>
        match FramesFor(ims[1..], env, coordinates)
        case Fault(e) => Fault(e)
        case Done(ids) => Done([id] + ids)
  }

  /** The frames come out one per imager, each the id of its imager; they
      fail exactly when some imager's frame fails, and then with the fault
      of the first such imager. */
  lemma {:induction false} FramesForRules(ims: seq<Option<Imager>>, env: IntrusionEnv, coordinates: string)
    ensures FramesFor(ims, env, coordinates).Done? <==> forall k :: 0 <= k < |ims| ==> SensorFrame(ims[k], env, coordinates).Done?
    ensures FramesFor(ims, env, coordinates).Done? ==>
      var ids := FramesFor(ims, env, coordinates).value;
      |ids| == |ims| && forall k :: 0 <= k < |ims| ==> ids[k] == SensorFrame(ims[k], env, coordinates).value
    ensures FramesFor(ims, env, coordinates).Fault? ==>
      exists k :: 0 <= k < |ims| && SensorFrame(ims[k], env, coordinates) == Fault(FramesFor(ims, env, coordinates).fault)
        && forall j :: 0 <= j < k ==> SensorFrame(ims[j], env, coordinates).Done?
    decreases |ims|
  {
    if ims != [] {
      FramesForRules(ims[1..], env, coordinates);
      assert forall k :: 1 <= k < |ims| ==> ims[1..][k - 1] == ims[k];
      var r := FramesFor(ims, env, coordinates);
      if SensorFrame(ims[0], env, coordinates).Done? && r.Fault? {
        var k :| 0 <= k < |ims[1..]| && SensorFrame(ims[1..][k], env, coordinates) == Fault(r.fault)
          && forall j :: 0 <= j < k ==> SensorFrame(ims[1..][j], env, coordinates).Done?;
        assert SensorFrame(ims[k + 1], env, coordinates) == Fault(r.fault);
        assert forall j :: 0 <= j < k + 1 ==> SensorFrame(ims[j], env, coordinates).Done? by {
          forall j | 0 < j < k + 1
            ensures SensorFrame(ims[j], env, coordinates).Done?
          {
            assert ims[1..][j - 1] == ims[j];
          }
        }
      }
    }
  }

  /** A frame id lies in the spacecraft's block of 1000 ids, and two
      attached imagers of different names have different frame ids. */
  lemma FrameIdsDistinct(a: Imager, b: Imager, env: IntrusionEnv, coordinates: string)
    requires SensorFrame(Some(a), env, coordinates).Done? && SensorFrame(Some(b), env, coordinates).Done?
    ensures env.satId * 1000 - |env.hardware| < SensorFrame(Some(a), env, coordinates).value <= env.satId * 1000
    ensures a.name != b.name ==> SensorFrame(Some(a), env, coordinates).value != SensorFrame(Some(b), env, coordinates).value
  {
  }

  /** What Initialize reaches when it does not throw: the base class did
      not initialise (and the answer is false), or the imagers are ready
      with their frame ids (none are made when the run is disabled). */
  datatype InitAnswer = BaseFailed | Ready(frameIds: seq<int>)

  /** Initialize: when the base class initialises, every sensor name must
      have resolved; unless the run is disabled, every imager then gets a
      frame, or the first fault is thrown. */
  function InitializeSpec(f: Fields, env: IntrusionEnv): Result2<InitAnswer, InitFault>
  {
    if !env.baseInitialized then Done(BaseFailed)
    else if |f.sensors| != |env.resolved| || None in env.resolved then Fault(ImagersNotSet)
    else if env.runDisabled then Done(Ready([]))
    else
      match FramesFor(env.resolved, env, f.reportCoordinates)
      case Fault(e) => Fault(e)
      case Done(ids) => Done(Ready(ids))
  }

  /** Initialize succeeds with frames exactly when every sensor resolved to
      an attached imager with a supported field of view, the report
      coordinates are FixedGrid and the grid frame file has a class id;
      the frame of each imager is then its spacecraft's id times 1000 less
      its hardware index. With the default SpacecraftOrigin coordinates
      and at least one sensor, an enabled run always throws. */
  lemma InitializeRules(f: Fields, env: IntrusionEnv)
    requires env.baseInitialized && !env.runDisabled && |f.sensors| == |env.resolved|
    ensures InitializeSpec(f, env).Done? <==>
      forall k :: 0 <= k < |env.resolved| ==>
        && env.resolved[k].Some? && env.resolved[k].value.name in env.hardware
        && env.resolved[k].value.fov != OtherShape
        && f.reportCoordinates == "FixedGrid" && env.classIdFound
    ensures InitializeSpec(f, env).Done? ==>
      var ids := InitializeSpec(f, env).value.frameIds;
      |ids| == |env.resolved| &&
      forall k :: 0 <= k < |ids| ==> ids[k] == env.satId * 1000 - FirstIndex(env.hardware, env.resolved[k].value.name)
    ensures f.reportCoordinates == "SpacecraftOrigin" && f.sensors != [] ==> InitializeSpec(f, env).Fault?
  {
    FramesForRules(env.resolved, env, f.reportCoordinates);
    if None in env.resolved {
      var k :| 0 <= k < |env.resolved| && env.resolved[k] == None;
      assert !env.resolved[k].Some?;
    }
    if f.reportCoordinates == "SpacecraftOrigin" && f.sensors != [] {
      assert SensorFrame(env.resolved[0], env, f.reportCoordinates).Fault?;
    }
  }

  /** The hardware index search of Initialize: the index of the first
      hardware name equal to the imager's, or -1. */
  method HardwareIndex(hardware: seq<string>, name: string) returns (idx: int)
    ensures name in hardware ==> idx == FirstIndex(hardware, name)
    ensures name !in hardware ==> idx == -1
  {
    idx := -1;
    var ii := 0;
    while ii < |hardware|
      invariant 0 <= ii <= |hardware|
      invariant name !in hardware[..ii]
    {
      if hardware[ii] == name {
        return ii;
      }
      ii := ii + 1;
    }
    assert hardware[..ii] == hardware;
  }

  /** The per-imager loop of Initialize: each imager's frame in turn,
      stopping at the first fault. */
  method MakeFrames(env: IntrusionEnv, coordinates: string) returns (r: Result2<seq<int>, InitFault>)
    ensures r == FramesFor(env.resolved, env, coordinates)
  {
    var ids: seq<int> := [];
    var ii := 0;
    assert env.resolved[ii..] == env.resolved;
    PrependJoins(ids, ids, FramesFor(env.resolved, env, coordinates));
    while ii < |env.resolved|
      invariant 0 <= ii <= |env.resolved|
      invariant FramesFor(env.resolved, env, coordinates) == Prepend(ids, FramesFor(env.resolved[ii..], env, coordinates))
    {
      assert env.resolved[ii..][0] == env.resolved[ii] && env.resolved[ii..][1..] == env.resolved[ii + 1..];
      var frame := SensorFrameOf(env.resolved[ii], env, coordinates);
      if frame.Fault? {
        return Fault(frame.fault);
      }
      assert FramesFor(env.resolved[ii..], env, coordinates) == Prepend([frame.value], FramesFor(env.resolved[ii + 1..], env, coordinates));
      PrependJoins(ids, [frame.value], FramesFor(env.resolved[ii + 1..], env, coordinates));
      ids := ids + [frame.value];
      ii := ii + 1;
    }
    assert env.resolved[ii..] == [];
    assert ids + [] == ids;
    return Done(ids);
  }

  /** One step of the loop: the imager's hardware index, then the checks
      of the coordinates, the class id and the field of view. */
  method SensorFrameOf(im: Option<Imager>, env: IntrusionEnv, coordinates: string) returns (r: Result2<int, InitFault>)
    ensures r == SensorFrame(im, env, coordinates)
  {
    if im.None? {
      return Fault(ImagersNotSet);
    }
    var i := im.value;
    var hardwareIdx := HardwareIndex(env.hardware, i.name);
    if hardwareIdx == -1 {
      return Fault(NotAttached(i.name));
    }
    var frameId := env.satId * 1000 - hardwareIdx;
    if coordinates == "SpacecraftOrigin" {
      return Fault(OriginFrameUnsupported);
    } else if coordinates == "FixedGrid" {
      if !env.classIdFound {
        return Fault(NoClassId);
      }
    } else {
      return Fault(UnknownFrame);
    }
    if i.fov == OtherShape {
      return Fault(UnsupportedFov(i.name));
    }
    return Done(frameId);
  }

  /** The instrument name SPICE knows each frame by. */
  function InstrumentId(frameId: int): string
  {
    "INS" + IntToString(frameId)
  }

  /** The SPICE instrument names of a list of frames, in order. */
  function InstrumentIds(ids: seq<int>): (r: seq<string>)
    ensures |r| == |ids|
    ensures forall k :: 0 <= k < |ids| ==> r[k] == InstrumentId(ids[k])
    decreases |ids|
  {
    if ids == [] then [] else [InstrumentId(ids[0])] + InstrumentIds(ids[1..])
  }

  /** The class-id flag of the grid frame file scan as written: it is
      declared with `bool classIDFound, centerIDFound, centerPosFound =
      false;`, which gives only the last of the three an initial value, so
      a file with no CLASS_ID line leaves the flag with whatever value
      `leftover` the storage held. */
  function ClassIdFlagAsWritten(hasClassIdLine: bool, leftover: bool): bool
  {
    hasClassIdLine || leftover
  }

  /** The class-id flag as meant: set exactly when a CLASS_ID line was
      read. */
  function ClassIdFlag(hasClassIdLine: bool): bool
  {
    hasClassIdLine
  }

  /** A grid frame file without a class id passes the check as written
      when the uninitialised flag happens to be true, and then Initialize
      goes on with no class id; with the flag initialised to false the
      file is refused with the NoClassId fault. */
  lemma UninitialisedClassIdFlag(f: Fields, env: IntrusionEnv, im: Imager)
    requires f.reportCoordinates == "FixedGrid" && im.name in env.hardware && im.fov == Conical
    ensures ClassIdFlagAsWritten(false, true)
    ensures SensorFrame(Some(im), env.(classIdFound := ClassIdFlagAsWritten(false, true)), f.reportCoordinates).Done?
    ensures SensorFrame(Some(im), env.(classIdFound := ClassIdFlag(false)), f.reportCoordinates) == Fault(NoClassId)
  {
  }

  // ---------------------------------------------------------------------
  // FindEvents: the samples of an intrusion

  /** The epochs of an interval's samples as FindEvents makes them:
      a start at the interval's start, steps of stepSize seconds (in days),
      and a last sample at the interval's end. */
  ghost predicate SampleGrid(epochs: seq<real>, start: real, end: real, step: real)
  {
    && (start > end ==> epochs == [])
    && (start <= end ==> |epochs| > 0 && epochs[0] == start && epochs[|epochs| - 1] == end)
    && (forall i :: 0 <= i < |epochs| ==> start <= epochs[i] <= end)
    && (forall i :: 0 <= i < |epochs| - 2 ==> epochs[i + 1] == epochs[i] + step)
    && (|epochs| >= 2 ==> 0.0 < epochs[|epochs| - 1] - epochs[|epochs| - 2] <= step)
  }

  /** How many more passes the sampling loop makes at most from t. */
  function Remaining(t: real, end: real, step: real): int
    requires step > 0.0
  {
    if t > end then 0 else if t == end then 1 else ((end - t) / step).Floor + 2
  }

  /** Each branch of the sampling loop brings it nearer its end. */
  lemma RemainingDecreases(t: real, end: real, step: real)
    requires step > 0.0 && t <= end
    ensures 0 <= Remaining(t, end, step)
    ensures t + step <= end ==> 0 <= Remaining(t + step, end, step) < Remaining(t, end, step)
    ensures t == end ==> Remaining(t + step, end, step) < Remaining(t, end, step)
    ensures t < end ==> Remaining(end, end, step) < Remaining(t, end, step)
  {
    if t < end {
      assert (end - t) / step > 0.0;
    }
    if t + step <= end {
      var a := end - t;
      assert (a - step) / step == a / step - 1.0 by {
        var q := a / step;
        var p := (a - step) / step;
        assert q * step == a;
        assert p * step == a - step;
        assert (p - q + 1.0) * step == p * step - q * step + step;
        var d := p - q + 1.0;
        assert d * step == 0.0;
        assert d == 0.0;
      }
    }
  }

  /** The sampling loop of FindEvents: a sample at each step while the
      next one is inside the interval; when it is not, one more sample at
      the end (unless the last one was exactly there). A positive step is
      needed for the loop to end. */
  method SampleEpochs(start: real, end: real, stepSize: real) returns (epochs: seq<real>)
    requires stepSize > 0.0
    ensures SampleGrid(epochs, start, end, stepSize / 86400.0)
  {
    var step := stepSize / 86400.0;
    var t := start;
    epochs := [];
    while t <= end
      invariant SamplesSoFar(epochs, t, start, end, step)
      decreases Remaining(t, end, step)
    {
      RemainingDecreases(t, end, step);
      SampleStep(epochs, t, start, end, step);
      epochs := epochs + [t];
      if t + step <= end {
        t := t + step;
      } else if t == end {
        t := t + step;
      } else {
        t := end;
      }
    }
    SamplesDone(epochs, t, start, end, step);
  }

  /** The next value of the loop's epoch after a sample at t. */
  function NextEpoch(t: real, end: real, step: real): real
  {
    if t + step <= end then t + step else if t == end then t + step else end
  }

  /** What the sampling loop keeps: the samples so far rise by the step,
      except a last short step to the end, and the next epoch t is one
      step on from the last sample, or the end after a short step. */
  ghost predicate SamplesSoFar(epochs: seq<real>, t: real, start: real, end: real, step: real)
  {
    && (epochs == [] ==> t == start)
    && (epochs != [] ==> epochs[0] == start)
    && (forall i :: 0 <= i < |epochs| ==> start <= epochs[i] <= end)
    && (forall i :: 0 <= i < |epochs| - 1 ==>
          (epochs[i + 1] == epochs[i] + step
           || (i == |epochs| - 2 && epochs[i + 1] == end && 0.0 < epochs[i + 1] - epochs[i] < step)))
    && (epochs != [] ==>
          (t == epochs[|epochs| - 1] + step
           || (t == end && epochs[|epochs| - 1] < end && end - epochs[|epochs| - 1] < step)))
    && (epochs != [] && t > end ==> epochs[|epochs| - 1] == end)
  }

  /** One pass of the sampling loop keeps what it keeps. */
  lemma SampleStep(epochs: seq<real>, t: real, start: real, end: real, step: real)
    requires step > 0.0 && t <= end && SamplesSoFar(epochs, t, start, end, step)
    ensures SamplesSoFar(epochs + [t], NextEpoch(t, end, step), start, end, step)
  {
    var e := epochs + [t];
    assert forall i :: 0 <= i < |epochs| ==> e[i] == epochs[i];
  }

  /** When the loop ends, the samples are the grid. */
  lemma SamplesDone(epochs: seq<real>, t: real, start: real, end: real, step: real)
    requires step > 0.0 && t > end && SamplesSoFar(epochs, t, start, end, step)
    ensures SampleGrid(epochs, start, end, step)
  {
  }

  /** The samples rise strictly, so the interval's end is sampled exactly
      once, as the last sample, and its start exactly once, as the first. */
  lemma {:induction false} SamplesIncrease(epochs: seq<real>, start: real, end: real, step: real)
    requires step > 0.0 && SampleGrid(epochs, start, end, step)
    ensures forall i, j :: 0 <= i < j < |epochs| ==> epochs[i] < epochs[j]
    ensures forall i :: 0 <= i < |epochs| - 1 ==> epochs[i] < end
    ensures forall i :: 0 < i < |epochs| ==> epochs[i] > start
  {
    forall i, j | 0 <= i < j < |epochs|
      ensures epochs[i] < epochs[j]
    {
      StepUp(epochs, start, end, step, i, j);
    }
  }

  lemma {:induction false} StepUp(epochs: seq<real>, start: real, end: real, step: real, i: int, j: int)
    requires step > 0.0 && SampleGrid(epochs, start, end, step)
    requires 0 <= i < j < |epochs|
    ensures epochs[i] < epochs[j]
    decreases j - i
  {
    if j > i + 1 {
      StepUp(epochs, start, end, step, i, j - 1);
    }
    if j == |epochs| - 1 {
      assert epochs[j - 1] < epochs[j];
    } else {
      assert epochs[j] == epochs[j - 1] + step;
    }
  }

  // ---------------------------------------------------------------------
  // FindEvents: what each sample computes

  /** pi as GmatMathConstants gives it. */
  const Pi: real := 3.141592653589793

  /** The largest phase angle the search accepts for a minimum phase. */
  function MaxPhaseAngle(minimumPhase: real): real
  {
    Pi * (1.0 - minimumPhase)
  }

  /** The illuminated fraction reported at a sample: one less the phase
      angle over pi, and 1 for the Sun. */
  function PhasePercent(body: string, phaseAngle: real): real
  {
    if body != "Sun" then 1.0 - phaseAngle / Pi else 1.0
  }

  /** The phase bound given to the search and the reported phase agree: a
      body's phase angle is within the bound exactly when its reported
      phase is at least the minimum phase; an accepted minimum phase keeps
      the bound within [0, pi]. */
  lemma PhaseBoundAgrees(body: string, phaseAngle: real, minimumPhase: real)
    ensures body != "Sun" ==> (phaseAngle <= MaxPhaseAngle(minimumPhase) <==> PhasePercent(body, phaseAngle) >= minimumPhase)
    ensures 0.0 <= minimumPhase <= 1.0 ==> 0.0 <= MaxPhaseAngle(minimumPhase) <= Pi
    ensures 0.0 <= phaseAngle <= Pi ==> 0.0 <= PhasePercent(body, phaseAngle) <= 1.0
  {
    if body != "Sun" {
      calc {
        PhasePercent(body, phaseAngle) >= minimumPhase;
      <==>
        1.0 - minimumPhase >= phaseAngle / Pi;
      <==> { assert (phaseAngle / Pi) * Pi == phaseAngle; }
        Pi * (1.0 - minimumPhase) >= phaseAngle;
      }
    }
  }

  /** The first report angle of a sample from the arc tangent of x over z
      (in degrees) and the sign of x: 90 less its size for x >= 0, 90 plus
      it otherwise. */
  function XAngle(atanDegrees: real, x: real): real
  {
    if x >= 0.0 then 90.0 - Abs(atanDegrees) else 90.0 + Abs(atanDegrees)
  }

  /** For an arc tangent within [-90, 90], the angle lies in [0, 180]: at
      most 90 on the side of positive x and at least 90 on the other. */
  lemma XAngleRange(atanDegrees: real, x: real)
    requires -90.0 <= atanDegrees <= 90.0
    ensures 0.0 <= XAngle(atanDegrees, x) <= 180.0
    ensures x >= 0.0 ==> XAngle(atanDegrees, x) <= 90.0
    ensures x < 0.0 ==> XAngle(atanDegrees, x) >= 90.0
    ensures XAngle(atanDegrees, x) + XAngle(atanDegrees, -x) == 180.0 || x == 0.0
  {
  }

  /** The instrument name the search is given for a sensor: the
      spacecraft's and the sensor's names in upper case joined by '_'. */
  function InstrumentName(sat: string, sensor: string): string
  {
    ContactLocatorModel.Upper(sat) + "_" + ContactLocatorModel.Upper(sensor)
  }

  /** The bodies that can hide an intruding body: the central body, when
      one is named. */
  function OccultingBodies(centralBody: string): seq<string>
  {
    if centralBody != "" then [centralBody] else []
  }

  /** The instrument name holds the spacecraft's name in upper case, the
      '_', then the sensor's, and nothing else; the central body is the
      only occulting body. */
  lemma SearchInputs(sat: string, sensor: string, centralBody: string)
    ensures var n := InstrumentName(sat, sensor);
      && |n| == |sat| + 1 + |sensor| && n[|sat|] == '_'
      && n[..|sat|] == ContactLocatorModel.Upper(sat) && n[|sat| + 1..] == ContactLocatorModel.Upper(sensor)
    ensures centralBody != "" ==> OccultingBodies(centralBody) == [centralBody]
    ensures centralBody == "" ==> OccultingBodies(centralBody) == []
  {
    var n := InstrumentName(sat, sensor);
    var u := ContactLocatorModel.Upper(sat);
    assert n == u + "_" + ContactLocatorModel.Upper(sensor);
    assert n[..|sat|] == u;
  }

  // ---------------------------------------------------------------------
  // The locator object

  /** An intrusion locator: its name, the fields above, the search step it
      overrides in the base class, the SPICE instrument names Initialize
      makes and the locating string. */
  class IntrusionLocator {
    var instanceName: string
    var sensors: seq<string>
    var centralBody: string
    var bodies: seq<string>
    var minimumPhase: real
    var reportCoordinates: string
    var gridFrameFile: string
    var results: nat
    var stepSize: real
    var spiceInstNames: seq<string>
    var locatingString: string

    /** The locator's own fields as a value. */
    function Snap(): Fields
      reads this
    {
      Fields(sensors, centralBody, bodies, minimumPhase, reportCoordinates, gridFrameFile, results)
    }

    /** Stores the fields of a value. */
    method Store(g: Fields)
      modifies this
      ensures Snap() == g
      ensures instanceName == old(instanceName) && stepSize == old(stepSize)
      ensures spiceInstNames == old(spiceInstNames) && locatingString == old(locatingString)
    {
      sensors, centralBody, bodies, minimumPhase := g.sensors, g.centralBody, g.bodies, g.minimumPhase;
      reportCoordinates, gridFrameFile, results := g.reportCoordinates, g.gridFrameFile, g.results;
    }

    /** The constructor: central body Earth, minimum phase 0, coordinates
      SpacecraftOrigin, no grid frame file, no sensors or bodies, and a
      search step of 10 seconds. */
    constructor(name: string)
      ensures instanceName == name && stepSize == 10.0
      ensures Snap() == Fields([], "Earth", [], 0.0, "SpacecraftOrigin", "", 0)
    {
      instanceName, stepSize, spiceInstNames, locatingString := name, 10.0, [], "";
      sensors, centralBody, bodies, minimumPhase := [], "Earth", [], 0.0;
      reportCoordinates, gridFrameFile, results := "SpacecraftOrigin", "", 0;
    }

    /** The assignment operator: every field of the other locator, its
      lists and a copy of its results; the name is kept, and assigning a
      locator to itself changes nothing. */
    method Assign(c: IntrusionLocator)
      modifies this
      ensures Snap() == old(c.Snap()) && instanceName == old(instanceName)
      ensures c == this ==> Snap() == old(Snap())
    {
      if c != this {
        var g := c.Snap();
        Store(g);
      }
    }

    /** SetStringParameter: one setter per parameter of the locator's
      own; any other parameter is the base class's. */
    method SetStringParameter(p: IntrusionParam, value: string, baseSet: bool) returns (r: Result<bool>)
      modifies this
      ensures (Snap(), r) == SetString(old(Snap()), p, value, instanceName, baseSet)
      ensures instanceName == old(instanceName)
    {
      if p == ReportCoordinates {
        r := SetCoordinates(value);
      } else if p == Sensors {
        r := AddSensorName(value);
      } else if p == CentralBody {
        r := SetCentralBody(value);
      } else if p == IntrudingBodies {
        r := AddBodyName(value);
      } else if p == SpiceGridFrameFile {
        gridFrameFile := value;
        r := Ok(true);
      } else {
        r := Ok(baseSet);
      }
    }

    /** The report coordinates branch of SetStringParameter. */
    method SetCoordinates(value: string) returns (r: Result<bool>)
      modifies this
      ensures (Snap(), r) == SetString(old(Snap()), ReportCoordinates, value, instanceName, true)
      ensures instanceName == old(instanceName)
    {
      if value == "SpacecraftOrigin" || value == "FixedGrid" {
        reportCoordinates := value;
        return Ok(true);
      }
      return Err(CoordinatesMessage(value, instanceName));
    }

    /** The sensor branch of SetStringParameter: a new name is appended. */
    method AddSensorName(value: string) returns (r: Result<bool>)
      modifies this
      ensures (Snap(), r) == SetString(old(Snap()), Sensors, value, instanceName, true)
      ensures instanceName == old(instanceName)
    {
      if value !in sensors {
        sensors := sensors + [value];
      }
      return Ok(true);
    }

    /** The central body branch of SetStringParameter. */
    method SetCentralBody(value: string) returns (r: Result<bool>)
      modifies this
      ensures (Snap(), r) == SetString(old(Snap()), CentralBody, value, instanceName, true)
      ensures instanceName == old(instanceName)
    {
      if value != "Earth" {
        return Err(CentralBodyMessage(value, instanceName));
      }
      centralBody := value;
      return Ok(true);
    }

    /** The intruding-body branch of SetStringParameter: a new name is
      appended. */
    method AddBodyName(value: string) returns (r: Result<bool>)
      modifies this
      ensures (Snap(), r) == SetString(old(Snap()), IntrudingBodies, value, instanceName, true)
      ensures instanceName == old(instanceName)
    {
      if value !in bodies {
        bodies := bodies + [value];
      }
      return Ok(true);
    }

    /** GetStringParameter. */
    function GetStringParameter(p: IntrusionParam, baseValue: string): (s: string)
      reads this
      ensures s == GetString(Snap(), p, baseValue)
    {
      if p == ReportCoordinates then reportCoordinates
      else if p == CentralBody then centralBody
      else if p == SpiceGridFrameFile then gridFrameFile
      else baseValue
    }

    /** The indexed getter, as corrected: sensors and intruding bodies
      answer inside their lists only; other parameters are the base
      class's. */
    function GetStringParameterAt(p: IntrusionParam, index: int, baseValue: Result<string>): (r: Result<string>)
      reads this
      ensures p == Sensors ==> r == GetAt(sensors, index, SensorIndexMessage(instanceName))
      ensures p == IntrudingBodies ==> r == GetAt(bodies, index, BodyIndexMessage(instanceName))
      ensures p != Sensors && p != IntrudingBodies ==> r == baseValue
    {
      if p == Sensors then
        if 0 <= index < |sensors| then Ok(sensors[index]) else Err(SensorIndexMessage(instanceName))
      else if p == IntrudingBodies then
        if 0 <= index < |bodies| then Ok(bodies[index]) else Err(BodyIndexMessage(instanceName))
      else baseValue
    }

    /** The indexed setter, as corrected: a listed name is ignored, an
      index inside the list overwrites, any other appends. */
    method SetStringParameterAt(p: IntrusionParam, value: string, index: int, baseSet: bool) returns (r: bool)
      modifies this
      ensures p == Sensors ==> Snap() == old(Snap()).(sensors := ContactLocatorModel.SetObserver(old(sensors), value, index).0) && r
      ensures p == IntrudingBodies ==> Snap() == old(Snap()).(bodies := ContactLocatorModel.SetObserver(old(bodies), value, index).0) && r
      ensures p != Sensors && p != IntrudingBodies ==> Snap() == old(Snap()) && r == baseSet
      ensures instanceName == old(instanceName)
    {
      if p == Sensors {
        if value !in sensors {
          if 0 <= index < |sensors| {
            sensors := sensors[index := value];
          } else {
            sensors := sensors + [value];
          }
        }
        return true;
      }
      if p == IntrudingBodies {
        if value !in bodies {
          if 0 <= index < |bodies| {
            bodies := bodies[index := value];
          } else {
            bodies := bodies + [value];
          }
        }
        return true;
      }
      return baseSet;
    }

    /** SetRealParameter. */
    method SetRealParameter(p: IntrusionParam, value: real, valueText: string, baseValue: real) returns (r: Result<real>)
      modifies this
      ensures (Snap(), r) == SetReal(old(Snap()), p, value, valueText, instanceName, baseValue)
      ensures instanceName == old(instanceName)
    {
      if p == MinimumPhase {
        if value < 0.0 || value > 1.0 {
          return Err(MinimumPhaseMessage(valueText, instanceName));
        }
        minimumPhase := value;
        return Ok(minimumPhase);
      }
      return Ok(baseValue);
    }

    /** RenameRefObject: the searches in the order of the type, each
      stopping at the first match. */
    method RenameRefObject(t: RefType, oldName: string, newName: string, baseRenamed: bool) returns (r: bool)
      modifies this
      ensures (Snap(), r) == Rename(old(Snap()), t, oldName, newName, baseRenamed)
      ensures instanceName == old(instanceName)
    {
      if t == Hardware || t == UnknownObject {
        var found := RenameSensor(oldName, newName);
        if found {
          return true;
        }
      }
      if t == CelestialBodyType || t == UnknownObject {
        if centralBody == oldName {
          centralBody := newName;
          return true;
        }
        var found := RenameBody(oldName, newName);
        if found {
          return true;
        }
      }
      return baseRenamed;
    }

    /** The sensor loop of RenameRefObject. */
    method RenameSensor(oldName: string, newName: string) returns (found: bool)
      modifies this
      ensures found <==> oldName in old(sensors)
      ensures Snap() == old(Snap()).(sensors := RenameFirst(old(sensors), oldName, newName))
      ensures instanceName == old(instanceName)
    {
      var s := sensors;
      var i := 0;
      while i < |s|
        invariant 0 <= i <= |s|
        invariant oldName !in s[..i]
      {
        if s[i] == oldName {
          assert i == FirstIndex(s, oldName);
          sensors := s[i := newName];
          return true;
        }
        i := i + 1;
      }
      assert s[..i] == s;
      return false;
    }

    /** The intruding-body loop of RenameRefObject. */
    method RenameBody(oldName: string, newName: string) returns (found: bool)
      modifies this
      ensures found <==> oldName in old(bodies)
      ensures Snap() == old(Snap()).(bodies := RenameFirst(old(bodies), oldName, newName))
      ensures instanceName == old(instanceName)
    {
      var s := bodies;
      var i := 0;
      while i < |s|
        invariant 0 <= i <= |s|
        invariant oldName !in s[..i]
      {
        if s[i] == oldName {
          assert i == FirstIndex(s, oldName);
          bodies := s[i := newName];
          return true;
        }
        i := i + 1;
      }
      assert s[..i] == s;
      return false;
    }

    /** TakeAction, with "Clear" as corrected; other actions are the base
      class's. */
    method TakeAction(action: string, data: string, baseAction: bool) returns (r: bool)
      modifies this
      ensures action == "Clear" ==> (Snap(), r) == Clear(old(Snap()), data, baseAction)
      ensures action != "Clear" ==> Snap() == old(Snap()) && r == baseAction
      ensures instanceName == old(instanceName)
    {
      if action != "Clear" {
        return baseAction;
      }
      r := baseAction;
      if data == "Sensors" || data == "" {
        sensors := [];
        r := true;
      }
      if data == "Events" || data == "" {
        results := 0;
        r := true;
      }
    }

    /** Initialize: the checks, then the imagers' frames and their SPICE
      instrument names, and the locating string. A thrown fault leaves the
      locator as it was. */
    method Initialize(env: IntrusionEnv) returns (r: Result<bool>)
      modifies this
      ensures Snap() == old(Snap()) && instanceName == old(instanceName)
      ensures match InitializeSpec(old(Snap()), env)
        case Fault(e) => r == Err(InitMessage(e, old(Snap()), instanceName, env.satName)) && spiceInstNames == old(spiceInstNames)
        case Done(BaseFailed) => r == Ok(false) && spiceInstNames == old(spiceInstNames) && locatingString == "IntrusionLocator"
        case Done(Ready(ids)) =>
          && r == Ok(true) && locatingString == "IntrusionLocator"
          && spiceInstNames == (if env.runDisabled then old(spiceInstNames) else InstrumentIds(ids))
    {
      if env.baseInitialized {
        if |sensors| != |env.resolved| || None in env.resolved {
          return Err(InitMessage(ImagersNotSet, Snap(), instanceName, env.satName));
        }
        if !env.runDisabled {
          var frames := MakeFrames(env, reportCoordinates);
          if frames.Fault? {
            return Err(InitMessage(frames.fault, Snap(), instanceName, env.satName));
          }
          spiceInstNames := InstrumentIds(frames.value);
        }
        r := Ok(true);
      } else {
        r := Ok(false);
      }
      locatingString := "IntrusionLocator";
    }
  }
}
