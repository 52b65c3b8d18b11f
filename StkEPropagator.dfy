/** The STK ephemeris propagator
    (plugins/EphemPropagatorPlugin/src/base/propagator/StkEPropagator.cpp):
    a propagator that reads one spacecraft's states from an STK .e
    ephemeris file.

    Its step moves the epoch as the CCSDS-OEM propagator's does, and the
    clock arithmetic is the one of CcsdsEphPropagatorModel. It differs in
    the frames an STK file names, in keeping every span it reads, in
    converting the state of each step to the propagator's frame, and in an
    Initialize that reports false even when it succeeds. */
module StkEPropagatorModel {
  import opened Common
  import Ccsds = CcsdsEphPropagatorModel

  // ---------------------------------------------------------------------
  // Parameter access

  /** IsParameterReadOnly: EPHEMERISFILENAME is read-only, any other id is
      the base class's answer. */
  function IsParameterReadOnly(p: Ccsds.Param, baseReadOnly: int -> bool): bool
  {
    if p.EphemerisFile? then true else baseReadOnly(p.id)
  }

  /** SetStringParameter: setting the file name is accepted and changes
      nothing. */
  function SetStringParameter(p: Ccsds.Param, value: string, baseSet: (int, string) -> bool): bool
  {
    if p.EphemerisFile? then true else baseSet(p.id, value)
  }

  function GetIndexedStringParameter(p: Ccsds.Param, index: int, baseGet: (int, int) -> string): string
  {
    if p.EphemerisFile? then "" else baseGet(p.id, index)
  }

  function SetIndexedStringParameter(p: Ccsds.Param, value: string, index: int, baseSet: (int, string, int) -> bool): bool
  {
    if p.EphemerisFile? then false else baseSet(p.id, value, index)
  }

  /** The STK propagator answers every string-parameter query exactly as the
      CCSDS-OEM propagator does, so the read-only rules proved there
      (Ccsds.EphemerisFileIsReadOnly) hold here too. */
  lemma ParametersAsCcsds(p: Ccsds.Param, value: string, index: int,
                          baseReadOnly: int -> bool, baseSet: (int, string) -> bool,
                          baseGet: (int, int) -> string, baseSetAt: (int, string, int) -> bool)
    ensures IsParameterReadOnly(p, baseReadOnly) == Ccsds.IsParameterReadOnly(p, baseReadOnly)
    ensures SetStringParameter(p, value, baseSet) == Ccsds.SetStringParameter(p, value, baseSet)
    ensures GetIndexedStringParameter(p, index, baseGet) == Ccsds.GetIndexedStringParameter(p, index, baseGet)
    ensures SetIndexedStringParameter(p, value, index, baseSetAt) == Ccsds.SetIndexedStringParameter(p, value, index, baseSetAt)
    ensures p.EphemerisFile? ==>
              && IsParameterReadOnly(p, baseReadOnly) && SetStringParameter(p, value, baseSet)
              && GetIndexedStringParameter(p, index, baseGet) == "" && !SetIndexedStringParameter(p, value, index, baseSetAt)
  {
  }

  // ---------------------------------------------------------------------
  // Coordinate systems

  /** The GMAT axes for an STK coordinate system. */
  function StkAxesName(frame: string): Option<string>
  {
    if frame == "TrueOfDate" then Some("TODEq")
    else if frame == "J2000" then Some("MJ2000Eq")
    else if frame == "J2000_Ecliptic" then Some("MJ2000Ec")
    else if frame == "Fixed" then Some("BodyFixed")
    else if frame == "ICRF" then Some("ICRF")
    else None
  }

  function InertialMessage(ephemName: string): string
  {
    "The Coordinate System \"Inertial\" in use in \"" + ephemName
      + "\" is not supported by GMAT. J2000 or ICRF are recommended for use instead.\n"
  }

  /** BuildCoordinates: no conversion for an empty frame or J2000 about the
      Earth; otherwise the file's axes about its central body, or an
      exception for a frame GMAT does not support, with its own advice for
      "Inertial". */
  function StkCoordinates(coordinates: string, fileCb: string, ephemName: string): Result<Option<Ccsds.Axes>>
  {
    if coordinates == "" || (coordinates == "J2000" && fileCb == "Earth") then Ok(None)
    else
      match StkAxesName(coordinates)
      case Some(a) => Ok(Some(Ccsds.Axes(a, Ccsds.GmatBody(fileCb))))
      case None =>
        if coordinates == "Inertial" then Err(InertialMessage(ephemName))
        else Err(Ccsds.UnsupportedFrameMessage(coordinates, ephemName))
  }

  /** The frame mapping: a conversion is skipped exactly for "" and for
      J2000 about the Earth; otherwise it fails exactly for frames other
      than TrueOfDate, J2000, J2000_Ecliptic, Fixed and ICRF, "Inertial"
      with its own message and every other with the generic one, and a
      conversion has one of the five GMAT axes
      about a body other than Moon. */
  lemma StkCoordinatesMapping(coordinates: string, fileCb: string, ephemName: string)
    ensures StkCoordinates(coordinates, fileCb, ephemName) == Ok(None) <==>
      coordinates == "" || (coordinates == "J2000" && fileCb == "Earth")
    ensures StkCoordinates(coordinates, fileCb, ephemName).Err? <==>
      coordinates != "" && coordinates !in ["TrueOfDate", "J2000", "J2000_Ecliptic", "Fixed", "ICRF"]
    ensures coordinates == "Inertial" ==> StkCoordinates(coordinates, fileCb, ephemName) == Err(InertialMessage(ephemName))
    ensures StkCoordinates(coordinates, fileCb, ephemName).Err? && coordinates != "Inertial" ==>
      StkCoordinates(coordinates, fileCb, ephemName).msg == Ccsds.UnsupportedFrameMessage(coordinates, ephemName)
    ensures StkCoordinates(coordinates, fileCb, ephemName).Ok? && StkCoordinates(coordinates, fileCb, ephemName).value.Some? ==>
      var a := StkCoordinates(coordinates, fileCb, ephemName).value.value;
      a.axes in ["TODEq", "MJ2000Eq", "MJ2000Ec", "BodyFixed", "ICRF"] && a.origin != "Moon"
  {
  }

  // ---------------------------------------------------------------------
  // Messages

  function OneObjectMessage(): string { "STK propagators require exactly one SpaceObject." }
  function NotSpacecraftMessage(): string { "STK ephemeris propagators only work for Spacecraft." }
  function NoFileNameMessage(): string { "The STK propagator requires a valid ephemeris file name" }
  function MissingFileMessage(name: string): string { "The STK ephemeris file " + name + " does not exist" }
  function OpenFailureMessage(name: string): string { "The STK ephemeris file " + name + " failed to open" }

  /** The exception of a step outside the span; num is the 16-digit
      formatting of a real. */
  function StepOutsideMessage(name: string, start: real, end: real, epoch: real, num: real -> string): string
  {
    "The STK Propagator " + name + " is attempting to step outside of the span of the ephemeris data; halting.  "
      + "The current STK ephemeris covers the A.1 modified Julian span " + num(start) + " to " + num(end)
      + " and the requested epoch is " + num(epoch) + "."
  }

  // ---------------------------------------------------------------------
  // The propagator's state and what its methods do to it

  /** The fields of the propagator; spanStart and spanEnd are the spans
      kept by the base class, one per file read. */
  datatype Fields = Fields(
    ephemName: string,
    fileDataLoaded: bool,
    centralBody: string,
    ephemStart: real,
    ephemEnd: real,
    ephemStep: real,
    clock: Ccsds.Clock,
    state: seq<real>,
    axes: Option<Ccsds.Axes>,
    objectEpoch: real,
    propagated: bool,
    ephem: Ccsds.EphemFile,
    spanStart: seq<real>,
    spanEnd: seq<real>)

  /** The file's state at an epoch, converted at the epoch given when the
      file has its own coordinate system. */
  function ConvertedAt(f: Fields, epoch: real, at: real, convert: (Ccsds.Axes, real, seq<real>) -> seq<real>): seq<real>
  {
    var s := f.ephem.interp(epoch);
    if f.axes.Some? then convert(f.axes.value, at, s) else s
  }

  /** SetEphemSpan: the file's span becomes the propagator's and is
      appended to the spans kept so far. */
  function SpanSpec(f: Fields, file: Ccsds.EphemFile): (r: Fields)
    ensures |r.spanStart| == |f.spanStart| + 1 && |r.spanEnd| == |f.spanEnd| + 1
    ensures r.spanStart[..|f.spanStart|] == f.spanStart && r.spanEnd[..|f.spanEnd|] == f.spanEnd
    ensures r.spanStart[|f.spanStart|] == r.ephemStart == file.start
    ensures r.spanEnd[|f.spanEnd|] == r.ephemEnd == file.end
  {
    f.(ephemStart := file.start, ephemEnd := file.end,
       spanStart := f.spanStart + [file.start], spanEnd := f.spanEnd + [file.end])
  }

  /** Reading the file: its records, its span, and the central body. */
  function ReadFileSpec(f: Fields, file: Ccsds.EphemFile): Fields
  {
    SpanSpec(f.(ephem := file), file).(fileDataLoaded := true, centralBody := Ccsds.CentralBodyFor(f.centralBody))
  }

  /** The coordinate systems of the file, then the epoch, the state
      converted at it, the last epoch, the time from the ephemeris start
      and the object's epoch. */
  function FrameSpec(f: Fields, file: Ccsds.EphemFile, env: Ccsds.InitEnv): (Fields, Outcome)
  {
    match StkCoordinates(file.frame, file.centralBody, f.ephemName)
    case Err(m) => (f.(axes := None), Fail(m))
    case Ok(a) => (StartSpec(f.(axes := if a.Some? then a else f.axes), env), Pass)
  }

  /** The end of loading: the epoch, last epoch and object's epoch are the
      initial epoch, the time from the ephemeris start agrees with it, and
      the state is the file's there, converted there. */
  function StartSpec(f: Fields, env: Ccsds.InitEnv): Fields
  {
    var e := env.initialEpoch;
    f.(state := ConvertedAt(f, e, e, env.convert),
       clock := f.clock.(current := e, last := e, fromStart := (e - f.ephemStart) * 86400.0),
       objectEpoch := e)
  }

  /** The loading branch of Initialize for the one object. */
  function LoadSpec(f: Fields, o: Ccsds.SpaceObject, env: Ccsds.InitEnv): (Fields, Outcome)
  {
    if !o.isSpacecraft then (f, Fail(NotSpacecraftMessage()))
    else
      var f1 := f.(ephemName := o.ephemerisName);
      if f1.ephemName == "" then (f1, Fail(NoFileNameMessage()))
      else
        var path := env.findPath(f1.ephemName);
        if path == "" then (f1, Fail(MissingFileMessage(f1.ephemName)))
        else
          match env.open(path)
          case None => (f1, Fail(OpenFailureMessage(f1.ephemName)))
          case Some(file) => FrameSpec(ReadFileSpec(f1, file), file, env)
  }

  /** The object takes the propagator's epoch when the start epoch comes
      from the script. */
  function FromScript(f: Fields, env: Ccsds.InitEnv): Fields
  {
    if env.fromScript then f.(objectEpoch := f.clock.current) else f
  }

  /** Initialize once its checks on the base class and the objects pass. */
  function LoadAndFinish(f: Fields, o: Ccsds.SpaceObject, env: Ccsds.InitEnv): (Fields, Result<bool>)
  {
    if env.psmSet && !f.fileDataLoaded then
      var l := LoadSpec(f, o, env);
      if l.1.Fail? then (l.0, Err(l.1.msg)) else (FromScript(l.0, env), Ok(false))
    else (FromScript(f, env), Ok(false))
  }

  /** Initialize: its answer is never true, and the object takes the epoch
      from the script even when the base class fails. */
  function InitializeSpec(f: Fields, env: Ccsds.InitEnv): (Fields, Result<bool>)
  {
    if !env.baseInitialized then (FromScript(f, env), Ok(false))
    else
      var f1 := f.(clock := f.clock.(taken := 0.0));
      if |env.objects| != 1 then (f1, Err(OneObjectMessage()))
      else LoadAndFinish(f1, env.objects[0], env)
  }

  /** Initialize reports false or throws, never true; without the base
      class it changes nothing but the object's epoch (from the script);
      with it, anything but exactly one object throws. */
  lemma {:induction false} InitializeNeverReportsTrue(f: Fields, env: Ccsds.InitEnv)
    ensures InitializeSpec(f, env).1 == Ok(false) || InitializeSpec(f, env).1.Err?
    ensures !env.baseInitialized ==>
      InitializeSpec(f, env).1 == Ok(false)
      && InitializeSpec(f, env).0 == (if env.fromScript then f.(objectEpoch := f.clock.current) else f)
    ensures env.baseInitialized && |env.objects| != 1 ==> InitializeSpec(f, env).1 == Err(OneObjectMessage())
  {
    if env.baseInitialized && |env.objects| == 1 {
      var f1 := f.(clock := f.clock.(taken := 0.0));
      assert InitializeSpec(f, env) == LoadAndFinish(f1, env.objects[0], env);
    }
  }

  /** When the file is still to be loaded, the first failed check on the
      object and its file is the exception; a load that does not throw
      opened the file, appended its span to the kept spans, set epoch and
      last epoch to the initial epoch with the time from the ephemeris
      start agreeing, and found the file's frame supported. */
  lemma {:induction false} InitializeLoadsFile(f: Fields, o: Ccsds.SpaceObject, env: Ccsds.InitEnv)
    requires env.psmSet && !f.fileDataLoaded
    ensures var r := LoadAndFinish(f, o, env).1;
      && (!o.isSpacecraft ==> r == Err(NotSpacecraftMessage()))
      && (o.isSpacecraft && o.ephemerisName == "" ==> r == Err(NoFileNameMessage()))
      && (o.isSpacecraft && o.ephemerisName != "" && env.findPath(o.ephemerisName) == "" ==>
            r == Err(MissingFileMessage(o.ephemerisName)))
    ensures LoadAndFinish(f, o, env).1.Ok? ==>
      var g := LoadAndFinish(f, o, env).0;
      var file := env.open(env.findPath(o.ephemerisName)).value;
      && env.open(env.findPath(o.ephemerisName)).Some?
      && g.fileDataLoaded && g.ephemStart == file.start && g.ephemEnd == file.end
      && g.spanStart == f.spanStart + [file.start] && g.spanEnd == f.spanEnd + [file.end]
      && g.clock.current == env.initialEpoch && g.clock.last == env.initialEpoch
      && Ccsds.Tracks(g.clock, g.ephemStart)
      && g.centralBody != "Moon" && g.centralBody != ""
      && StkCoordinates(file.frame, file.centralBody, o.ephemerisName).Ok?
  {
    var l := LoadSpec(f, o, env);
    if l.1.Pass? {
      var file := env.open(env.findPath(o.ephemerisName)).value;
      var f1 := f.(ephemName := o.ephemerisName);
      var f2 := ReadFileSpec(f1, file);
      assert l == FrameSpec(f2, file, env);
    }
  }

  /** Step: the clock of CcsdsEphPropagatorModel, the STK exception, and
      the state converted at the new epoch. */
  function StepSpec(f: Fields, name: string, num: real -> string,
                    convert: (Ccsds.Axes, real, seq<real>) -> seq<real>): (Fields, Result<bool>)
  {
    var r := Ccsds.StepClock(f.clock, f.ephemStart, f.ephemEnd, f.ephemStep);
    var c := r.0;
    if !r.1 then (f.(clock := c), Err(StepOutsideMessage(name, f.ephemStart, f.ephemEnd, c.current, num)))
    else
      (f.(clock := c, state := ConvertedAt(f, c.current, c.current, convert), objectEpoch := c.current, propagated := true),
       Ok(true))
  }

  /** A step either succeeds or throws, and one that throws leaves the
      state, the object's epoch and its propagated flag untouched. */
  lemma StepOutcomes(f: Fields, name: string, num: real -> string, convert: (Ccsds.Axes, real, seq<real>) -> seq<real>)
    ensures StepSpec(f, name, num, convert).1 == Ok(true) || StepSpec(f, name, num, convert).1.Err?
    ensures StepSpec(f, name, num, convert).1.Err? ==>
      var g := StepSpec(f, name, num, convert).0;
      g.state == f.state && g.propagated == f.propagated && g.objectEpoch == f.objectEpoch
  {
  }

  /** A step that succeeds ends inside the span, with the state read from
      the file at the new epoch and converted there when the file has its
      own frame, and the object flagged as propagated. */
  lemma {:induction false} StepSucceedsInSpan(f: Fields, name: string, num: real -> string,
                                              convert: (Ccsds.Axes, real, seq<real>) -> seq<real>)
    requires f.ephemStart <= f.ephemEnd
    ensures StepSpec(f, name, num, convert).1 == Ok(true) ==>
      var g := StepSpec(f, name, num, convert).0;
      var s := f.ephem.interp(g.clock.current);
      && f.ephemStart <= g.clock.current <= f.ephemEnd && g.clock.last == g.clock.current
      && g.state == (if f.axes.Some? then convert(f.axes.value, g.clock.current, s) else s)
      && g.propagated && g.objectEpoch == g.clock.current
  {
    Ccsds.StepStaysInSpan(f.clock, f.ephemStart, f.ephemEnd, f.ephemStep);
  }

  /** A step from strictly inside the span always succeeds, at the epoch
      moved by the step and stopped at the bound it would cross. */
  lemma {:induction false} StepFromInsideSucceeds(f: Fields, name: string, num: real -> string,
                                                  convert: (Ccsds.Axes, real, seq<real>) -> seq<real>)
    requires f.ephemStart < f.clock.current < f.ephemEnd
    requires f.clock.last != f.clock.current || Ccsds.Tracks(f.clock, f.ephemStart)
    ensures StepSpec(f, name, num, convert).1 == Ok(true)
    ensures StepSpec(f, name, num, convert).0.clock.current
      == Ccsds.Clamp(f.clock.current + f.ephemStep / 86400.0, f.ephemStart, f.ephemEnd)
  {
    Ccsds.StepFromInside(f.clock, f.ephemStart, f.ephemEnd, f.ephemStep);
  }

  /** operator=: the file name and the epoch are copied, nothing is
      loaded, and the last epoch is the copied epoch; the time from the
      ephemeris start agrees with it unless the copied epoch is the -1
      sentinel, which is copied as the -1 sentinel. */
  function AssignSpec(f: Fields, propName: string, propEpoch: real): (r: Fields)
    ensures r.ephemName == propName && !r.fileDataLoaded
    ensures r.clock.current == r.clock.last == propEpoch
    ensures propEpoch == -1.0 ==> r.clock.fromStart == -1.0
    ensures propEpoch != -1.0 ==> Ccsds.Tracks(r.clock, r.ephemStart)
  {
    f.(ephemName := propName, fileDataLoaded := false,
       clock := f.clock.(current := propEpoch, last := propEpoch,
                         fromStart := if propEpoch != -1.0 then (propEpoch - f.ephemStart) * 86400.0 else -1.0))
  }

  /** After an assignment from a propagator that never stepped, the first
      step recomputes the time from the ephemeris start from the epoch it
      is given (the epoch differs from the last epoch), so the sentinel is
      never used as a time. */
  lemma {:induction false} AssignedSentinelIsRecomputed(f: Fields, propName: string, e: real)
    requires e != -1.0
    ensures var g := AssignSpec(f, propName, -1.0).(clock := AssignSpec(f, propName, -1.0).clock.(current := e));
      Ccsds.Advance(g.clock, g.ephemStart, g.ephemStep).fromStart == (e - g.ephemStart) * 86400.0 + g.ephemStep
  {
    var g := AssignSpec(f, propName, -1.0);
    assert g.clock.last == -1.0;
  }

  // ---------------------------------------------------------------------
  // The propagator

  class StkEPropagator {
    var instanceName: string
    var ephemName: string
    var fileDataLoaded: bool
    var centralBody: string
    var ephemStart: real
    var ephemEnd: real
    var ephemStep: real
    var currentEpoch: real
    var lastEpoch: real
    var timeFromEphemStart: real
    var timeFromEpoch: real
    var stepTaken: real
    var state: seq<real>
    /** The coordinate system of the file (ephemCoord), when one is built. */
    var axes: Option<Ccsds.Axes>
    /** The epoch given to the propagated spacecraft. */
    var objectEpoch: real
    /** Whether the spacecraft was told it has been propagated. */
    var propagated: bool
    /** The ephemeris file read. */
    var ephem: Ccsds.EphemFile
    /** The spans kept by the base class. */
    var spanStart: seq<real>
    var spanEnd: seq<real>

    function Snap(): Fields
      reads this
    {
      Fields(ephemName, fileDataLoaded, centralBody, ephemStart, ephemEnd, ephemStep,
             Ccsds.Clock(currentEpoch, lastEpoch, timeFromEphemStart, timeFromEpoch, stepTaken),
             state, axes, objectEpoch, propagated, ephem, spanStart, spanEnd)
    }

    function Clk(): Ccsds.Clock
      reads this
    {
      Ccsds.Clock(currentEpoch, lastEpoch, timeFromEphemStart, timeFromEpoch, stepTaken)
    }

    /** A new propagator has no file name and no data loaded, and its
        time from the ephemeris start and last epoch hold the -1
        sentinel. */
    constructor(name: string)
      ensures instanceName == name && ephemName == "" && !fileDataLoaded
      ensures timeFromEphemStart == -1.0 && lastEpoch == -1.0 && axes == None && !propagated
      ensures spanStart == [] && spanEnd == []
    {
      instanceName := name;
      ephemName := "";
      fileDataLoaded := false;
      centralBody := "";
      ephemStart, ephemEnd, ephemStep := 0.0, 0.0, 0.0;
      currentEpoch := 0.0;
      lastEpoch := -1.0;
      timeFromEphemStart := -1.0;
      timeFromEpoch := 0.0;
      stepTaken := 0.0;
      state := [];
      axes := None;
      objectEpoch := 0.0;
      propagated := false;
      ephem := Ccsds.EphemFile(0.0, 0.0, "", "", t => []);
      spanStart, spanEnd := [], [];
    }

    /** operator= from a propagator with the given file name and epoch. */
    method Assign(propName: string, propEpoch: real)
      modifies this
      ensures Snap() == AssignSpec(old(Snap()), propName, propEpoch)
    {
      ephemName := propName;
      fileDataLoaded := false;
      lastEpoch, currentEpoch := propEpoch, propEpoch;
      if lastEpoch != -1.0 {
        timeFromEphemStart := (lastEpoch - ephemStart) * 86400.0;
      } else {
        timeFromEphemStart := -1.0;
      }
    }

    /** SetEphemSpan. */
    method SetEphemSpan(file: Ccsds.EphemFile)
      modifies this
      ensures Snap() == SpanSpec(old(Snap()), file)
    {
      ephemStart, ephemEnd := file.start, file.end;
      spanStart := spanStart + [ephemStart];
      spanEnd := spanEnd + [ephemEnd];
    }

    /** BuildCoordinates for the file's frame and central body. */
    method BuildCoordinates(coordinates: string, fileCb: string) returns (o: Outcome)
      modifies this
      ensures var c := StkCoordinates(coordinates, fileCb, old(ephemName));
        && (c.Err? ==> o == Fail(c.msg) && Snap() == old(Snap()).(axes := None))
        && (c == Ok(None) ==> o == Pass && Snap() == old(Snap()))
        && (c.Ok? && c.value.Some? ==> o == Pass && Snap() == old(Snap()).(axes := c.value))
    {
      if coordinates != "" {
        if coordinates != "J2000" || fileCb != "Earth" {
          axes := None;
          var cb := Ccsds.GmatBody(fileCb);
          var name := StkAxesName(coordinates);
          if name.None? {
            if coordinates == "Inertial" {
              return Fail(InertialMessage(ephemName));
            }
            return Fail(Ccsds.UnsupportedFrameMessage(coordinates, ephemName));
          }
          axes := Some(Ccsds.Axes(name.value, cb));
        }
      }
      return Pass;
    }

    /** UpdateState: the file's state at the epoch, converted at the last
        epoch when the file has its own coordinate system. */
    method UpdateState(convert: (Ccsds.Axes, real, seq<real>) -> seq<real>)
      modifies this
      ensures Snap() == old(Snap()).(state := ConvertedAt(old(Snap()), old(currentEpoch), old(lastEpoch), convert))
    {
      var s := ephem.interp(currentEpoch);
      if axes.Some? {
        state := convert(axes.value, lastEpoch, s);
      } else {
        state := s;
      }
    }

    /** The loading branch of Initialize. */
    method Load(o: Ccsds.SpaceObject, env: Ccsds.InitEnv) returns (out: Outcome)
      modifies this
      ensures (Snap(), out) == LoadSpec(old(Snap()), o, env)
    {
      if !o.isSpacecraft {
        return Fail(NotSpacecraftMessage());
      }
      ephemName := o.ephemerisName;
      if ephemName == "" {
        return Fail(NoFileNameMessage());
      }
      var fullPath := env.findPath(ephemName);
      if fullPath == "" {
        return Fail(MissingFileMessage(ephemName));
      }
      var found := env.open(fullPath);
      if found.None? {
        return Fail(OpenFailureMessage(ephemName));
      }
      ReadFile(found.value);
      out := SetUpFrame(found.value, env);
    }

    method ReadFile(file: Ccsds.EphemFile)
      modifies this
      ensures Snap() == ReadFileSpec(old(Snap()), file)
    {
      ephem := file;
      SetEphemSpan(file);
      fileDataLoaded := true;
      SetCentralBody();
    }

    /** Moon becomes Luna, and no central body becomes Earth. */
    method SetCentralBody()
      modifies this
      ensures Snap() == old(Snap()).(centralBody := Ccsds.CentralBodyFor(old(centralBody)))
    {
      if centralBody == "Moon" {
        centralBody := "Luna";
      }
      if centralBody == "" {
        centralBody := "Earth";
      }
    }

    method SetUpFrame(file: Ccsds.EphemFile, env: Ccsds.InitEnv) returns (out: Outcome)
      modifies this
      ensures (Snap(), out) == FrameSpec(old(Snap()), file, env)
    {
      out := BuildCoordinates(file.frame, file.centralBody);
      if out.Fail? {
        return;
      }
      Start(env);
    }

    method Start(env: Ccsds.InitEnv)
      modifies this
      ensures Snap() == StartSpec(old(Snap()), env)
    {
      currentEpoch := env.initialEpoch;
      var s := ephem.interp(currentEpoch);
      if axes.Some? {
        state := env.convert(axes.value, currentEpoch, s);
      } else {
        state := s;
      }
      lastEpoch := currentEpoch;
      timeFromEphemStart := (lastEpoch - ephemStart) * 86400.0;
      objectEpoch := currentEpoch;
    }

    /** Initialize. */
    method Initialize(env: Ccsds.InitEnv) returns (r: Result<bool>)
      modifies this
      ensures (Snap(), r) == InitializeSpec(old(Snap()), env)
    {
      r := Ok(false);
      if env.baseInitialized {
        stepTaken := 0.0;
        if |env.objects| != 1 {
          return Err(OneObjectMessage());
        }
        r := LoadObject(env.objects[0], env);
        return;
      }
      if env.fromScript {
        objectEpoch := currentEpoch;
      }
    }

    /** Initialize once its checks on the base class and the objects
        pass. */
    method LoadObject(o: Ccsds.SpaceObject, env: Ccsds.InitEnv) returns (r: Result<bool>)
      modifies this
      ensures (Snap(), r) == LoadAndFinish(old(Snap()), o, env)
    {
      if env.psmSet && !fileDataLoaded {
        var out := Load(o, env);
        if out.Fail? {
          return Err(out.msg);
        }
      }
      if env.fromScript {
        objectEpoch := currentEpoch;
      }
      return Ok(false);
    }

    /** Step; num formats the reals of the exception. */
    method Step(num: real -> string, convert: (Ccsds.Axes, real, seq<real>) -> seq<real>) returns (r: Result<bool>)
      modifies this
      ensures (Snap(), r) == StepSpec(old(Snap()), instanceName, num, convert)
      ensures instanceName == old(instanceName)
    {
      ghost var f0 := Snap();
      AdvanceEpoch();
      var inDomain := SettleEpoch();
      assert (Clk(), inDomain) == Ccsds.StepClock(f0.clock, f0.ephemStart, f0.ephemEnd, f0.ephemStep);
      assert Snap() == f0.(clock := Clk());
      if !inDomain {
        return Err(StepOutsideMessage(instanceName, ephemStart, ephemEnd, currentEpoch, num));
      }
      var s := ephem.interp(currentEpoch);
      if axes.Some? {
        state := convert(axes.value, currentEpoch, s);
      } else {
        state := s;
      }
      objectEpoch := currentEpoch;
      propagated := true;
      return Ok(true);
    }

    /** The first part of Step. */
    method AdvanceEpoch()
      modifies this
      ensures Snap() == old(Snap()).(clock := Ccsds.Advance(old(Clk()), ephemStart, ephemStep))
      ensures instanceName == old(instanceName)
    {
      if lastEpoch != currentEpoch {
        lastEpoch := currentEpoch;
        timeFromEphemStart := (lastEpoch - ephemStart) * 86400.0;
      }
      timeFromEphemStart := timeFromEphemStart + ephemStep;
      timeFromEpoch := timeFromEpoch + ephemStep;
      stepTaken := ephemStep;
      currentEpoch := ephemStart + timeFromEphemStart / 86400.0;
    }

    /** The pause at the bounds and the slop check of Step; the last epoch
        follows the epoch only when it lies in the span. */
    method SettleEpoch() returns (inDomain: bool)
      modifies this
      ensures (Clk(), inDomain) == Ccsds.Settle(old(Clk()), ephemStart, ephemEnd)
      ensures Snap() == old(Snap()).(clock := Clk())
      ensures instanceName == old(instanceName)
    {
      if lastEpoch < ephemEnd && currentEpoch > ephemEnd {
        currentEpoch := ephemEnd;
      }
      if lastEpoch > ephemStart && currentEpoch < ephemStart {
        currentEpoch := ephemStart;
      }
      var flagOutOfDomain := false;
      if currentEpoch < ephemStart {
        if ephemStart - currentEpoch < Ccsds.Slop {
          currentEpoch := ephemStart;
        } else {
          flagOutOfDomain := true;
        }
      } else if currentEpoch > ephemEnd {
        if currentEpoch - ephemEnd < Ccsds.Slop {
          currentEpoch := ephemEnd;
        } else {
          flagOutOfDomain := true;
        }
      }
      if !flagOutOfDomain {
        lastEpoch := currentEpoch;
      }
      return !flagOutOfDomain;
    }
  }
}
