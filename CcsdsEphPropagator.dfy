/** The CCSDS-OEM ephemeris propagator
    (plugins/EphemPropagatorPlugin/src/base/propagator/CcsdsEphPropagator.cpp):
    a propagator that reads one spacecraft's states from an Orbit Ephemeris
    Message file instead of integrating them.

    The epoch arithmetic of a step (the time from the ephemeris start, the
    pause at a bound the step crosses, the slop allowed outside the span)
    is shared with the STK and SPICE ephemeris propagators, which import it
    from here. The file itself, the file manager and the coordinate
    converter are parameters. */
module CcsdsEphPropagatorModel {
  import opened Common

  /** The tolerance, in days, by which an epoch may miss the span. */
  const Slop: real := 0.0000000001

  // ---------------------------------------------------------------------
  // Epoch arithmetic of a step

  /** The epoch bookkeeping of an ephemeris propagator: currentEpoch and
      lastEpoch (A.1 modified Julian dates), timeFromEphemStart and
      timeFromEpoch (seconds) and stepTaken. */
  datatype Clock = Clock(current: real, last: real, fromStart: real, fromEpoch: real, taken: real)

  /** The first part of Step: the time from the ephemeris start is
      recomputed from the epoch if the epoch was moved since the last step,
      the step is added to both times, and the epoch is set from the time
      from the ephemeris start. */
  function Advance(c: Clock, start: real, step: real): Clock
  {
    var t := (if c.last != c.current then (c.current - start) * 86400.0 else c.fromStart) + step;
    Clock(start + t / 86400.0, c.current, t, c.fromEpoch + step, step)
  }

  /** The time from the ephemeris start agrees with the last epoch. */
  predicate Tracks(c: Clock, start: real)
  {
    c.fromStart == (c.last - start) * 86400.0
  }

  /** When the epoch was moved, or the times agree with it, a step moves the
      epoch by exactly the step, and the times then agree with the new
      epoch. */
  lemma AdvanceMovesByStep(c: Clock, start: real, step: real)
    requires c.last != c.current || Tracks(c, start)
    ensures Advance(c, start, step).current == c.current + step / 86400.0
    ensures Advance(c, start, step).last == c.current
    ensures Advance(c, start, step).fromEpoch == c.fromEpoch + step && Advance(c, start, step).taken == step
    ensures Tracks(Advance(c, start, step).(last := Advance(c, start, step).current), start)
  {
  }

  /** PAUSE_AT_BOUNDS: an epoch that crosses the end from before it stops
      at the end, one that crosses the start from after it stops at the
      start. */
  function Paused(last: real, cur: real, start: real, end: real): real
  {
    var c := if last < end && cur > end then end else cur;
    if last > start && c < start then start else c
  }

  /** The slop check: an epoch before the start or after the end by less
      than the slop is moved onto the bound, one further out has no epoch. */
  function Snapped(cur: real, start: real, end: real): Option<real>
  {
    if cur < start then (if start - cur < Slop then Some(start) else None)
    else if cur > end then (if cur - end < Slop then Some(end) else None)
    else Some(cur)
  }

  function Clamp(x: real, lo: real, hi: real): real
  {
    if x < lo then lo else if x > hi then hi else x
  }

  /** An epoch has a place in the span exactly when it misses the span by
      less than the slop, and that place is the nearest epoch of the span. */
  lemma SnappedWithinSlop(x: real, start: real, end: real)
    requires start <= end
    ensures Snapped(x, start, end).Some? <==> start - Slop < x < end + Slop
    ensures Snapped(x, start, end).Some? ==> Snapped(x, start, end).value == Clamp(x, start, end)
    ensures start <= x <= end ==> Snapped(x, start, end) == Some(x)
  {
  }

  /** The epoch update of Step: the advanced epoch is paused and snapped;
      on success the last epoch becomes the new epoch, otherwise (out of
      the span) the clock is left as the exception finds it. */
  function StepClock(c: Clock, start: real, end: real, step: real): (Clock, bool)
  {
    Settle(Advance(c, start, step), start, end)
  }

  /** The second part of Step: the advanced epoch paused and snapped. */
  function Settle(a: Clock, start: real, end: real): (Clock, bool)
  {
    var p := Paused(a.last, a.current, start, end);
    match Snapped(p, start, end)
    case None => (a.(current := p), false)
    case Some(e) => (a.(current := e, last := e), true)
  }

  /** A successful step ends inside the span, with the last epoch at the new
      epoch and the step recorded as taken. */
  lemma StepStaysInSpan(c: Clock, start: real, end: real, step: real)
    requires start <= end
    ensures StepClock(c, start, end, step).1 ==>
      var n := StepClock(c, start, end, step).0;
      start <= n.current <= end && n.last == n.current && n.taken == step && n.fromEpoch == c.fromEpoch + step
  {
  }

  /** A step from strictly inside the span never fails: it moves the epoch
      by the step and stops at the bound it would cross. */
  lemma {:induction false} StepFromInside(c: Clock, start: real, end: real, step: real)
    requires start < c.current < end
    requires c.last != c.current || Tracks(c, start)
    ensures StepClock(c, start, end, step).1
    ensures StepClock(c, start, end, step).0.current == Clamp(c.current + step / 86400.0, start, end)
  {
    AdvanceMovesByStep(c, start, step);
    var a := Advance(c, start, step);
    var p := Paused(a.last, a.current, start, end);
    assert p == Clamp(a.current, start, end);
    SnappedWithinSlop(p, start, end);
  }

  /** A step that leaves the span from the bound it stands on, by at least
      the slop, fails: the propagator halts at the ends of the span. */
  lemma {:induction false} StepOutFromBoundFails(c: Clock, start: real, end: real, step: real)
    requires start <= end
    requires c.last != c.current || Tracks(c, start)
    requires (c.current == end && step / 86400.0 >= Slop) || (c.current == start && -step / 86400.0 >= Slop)
    ensures !StepClock(c, start, end, step).1
  {
    AdvanceMovesByStep(c, start, step);
  }

  /** A step that crosses the end stops there, but the time from the
      ephemeris start keeps the whole step: it overshoots the end. The last
      epoch is then the epoch, so the next step does not recompute that time
      and carries the overshoot on; only an epoch moved from outside
      resets it. */
  lemma {:induction false} OvershotCarriesOver(c: Clock, start: real, end: real, step: real, next: real)
    requires start < c.current < end
    requires c.last != c.current || Tracks(c, start)
    requires c.current + step / 86400.0 > end
    ensures StepClock(c, start, end, step).1
    ensures var n := StepClock(c, start, end, step).0;
      && n.current == end && n.last == end
      && n.fromStart == (c.current - start) * 86400.0 + step > (end - start) * 86400.0
      && Advance(n, start, next).fromStart == n.fromStart + next
      && Advance(n, start, next).current == start + (n.fromStart + next) / 86400.0
  {
    StepFromInside(c, start, end, step);
    AdvanceMovesByStep(c, start, step);
  }

  // ---------------------------------------------------------------------
  // Coordinate systems

  /** The axes and origin of the coordinate system the file's states are
      given in. */
  datatype Axes = Axes(axes: string, origin: string)

  /** The GMAT axes for an OEM reference frame. */
  function OemAxesName(frame: string): Option<string>
  {
    if frame == "EME2000" then Some("MJ2000Eq")
    else if frame == "ICRF" then Some("ICRF")
    else if frame == "TOD" then Some("TODEq")
    else if frame == "TDR" || frame == "GRC" then Some("BodyFixed")
    else None
  }

  function UnsupportedFrameMessage(coordinates: string, ephemName: string): string
  {
    "The Coordinate System \"" + coordinates + "\" in use in \"" + ephemName + "\" is not supported by GMAT.\n"
  }

  /** The body name GMAT uses: Moon is Luna. */
  function GmatBody(cb: string): string
  {
    if cb == "Moon" then "Luna" else cb
  }

  /** BuildCoordinates: no conversion for an empty frame or EME2000 about
      the Earth; otherwise the file's axes about its central body, or an
      exception for a frame GMAT does not support. */
  function CcsdsCoordinates(coordinates: string, fileCb: string, ephemName: string): Result<Option<Axes>>
  {
    if coordinates == "" || (coordinates == "EME2000" && fileCb == "Earth") then Ok(None)
    else
      match OemAxesName(coordinates)
      case None => Err(UnsupportedFrameMessage(coordinates, ephemName))
      case Some(a) => Ok(Some(Axes(a, GmatBody(fileCb))))
  }

  /** The frame mapping: a conversion is skipped exactly for "" and for
      EME2000 about the Earth; otherwise it fails exactly for frames other
      than EME2000, ICRF, TOD, TDR and GRC, and a conversion has one of the
      four GMAT axes about a body other than Moon. */
  lemma CcsdsCoordinatesMapping(coordinates: string, fileCb: string, ephemName: string)
    ensures CcsdsCoordinates(coordinates, fileCb, ephemName) == Ok(None) <==>
      coordinates == "" || (coordinates == "EME2000" && fileCb == "Earth")
    ensures CcsdsCoordinates(coordinates, fileCb, ephemName).Err? <==>
      coordinates != "" && coordinates !in ["EME2000", "ICRF", "TOD", "TDR", "GRC"]
    ensures CcsdsCoordinates(coordinates, fileCb, ephemName).Err? ==>
      CcsdsCoordinates(coordinates, fileCb, ephemName).msg == UnsupportedFrameMessage(coordinates, ephemName)
    ensures CcsdsCoordinates(coordinates, fileCb, ephemName).Ok? && CcsdsCoordinates(coordinates, fileCb, ephemName).value.Some? ==>
      var a := CcsdsCoordinates(coordinates, fileCb, ephemName).value.value;
      a.axes in ["MJ2000Eq", "ICRF", "TODEq", "BodyFixed"] && a.origin != "Moon"
    ensures coordinates == "TDR" || coordinates == "GRC" ==>
      CcsdsCoordinates(coordinates, fileCb, ephemName) == Ok(Some(Axes("BodyFixed", GmatBody(fileCb))))
  {
  }

  // ---------------------------------------------------------------------
  // Parameter access

  /** A string parameter of the propagator: the ephemeris file name, or one
      the base class handles. */
  datatype Param = EphemerisFile | Inherited(id: int)

  function IsParameterReadOnly(p: Param, baseReadOnly: int -> bool): bool
  {
    match p
    case EphemerisFile => true
    case Inherited(id) => baseReadOnly(id)
  }

  function SetStringParameter(p: Param, value: string, baseSet: (int, string) -> bool): bool
  {
    match p
    case EphemerisFile => true
    case Inherited(id) => baseSet(id, value)
  }

  function GetIndexedStringParameter(p: Param, index: int, baseGet: (int, int) -> string): string
  {
    match p
    case EphemerisFile => ""
    case Inherited(id) => baseGet(id, index)
  }

  function SetIndexedStringParameter(p: Param, value: string, index: int, baseSet: (int, string, int) -> bool): bool
  {
    match p
    case EphemerisFile => false
    case Inherited(id) => baseSet(id, value, index)
  }

  /** The ephemeris file name is read-only: setting it is accepted and
      changes nothing, it has no indexed entries and none can be set; every
      other parameter is the base class's answer. */
  lemma EphemerisFileIsReadOnly(value: string, index: int, id: int,
                                baseReadOnly: int -> bool, baseSet: (int, string) -> bool,
                                baseGet: (int, int) -> string, baseSetAt: (int, string, int) -> bool)
    ensures IsParameterReadOnly(EphemerisFile, baseReadOnly)
    ensures SetStringParameter(EphemerisFile, value, baseSet)
    ensures GetIndexedStringParameter(EphemerisFile, index, baseGet) == ""
    ensures !SetIndexedStringParameter(EphemerisFile, value, index, baseSetAt)
    ensures IsParameterReadOnly(Inherited(id), baseReadOnly) == baseReadOnly(id)
    ensures SetStringParameter(Inherited(id), value, baseSet) == baseSet(id, value)
    ensures GetIndexedStringParameter(Inherited(id), index, baseGet) == baseGet(id, index)
    ensures SetIndexedStringParameter(Inherited(id), value, index, baseSetAt) == baseSetAt(id, value, index)
  {
  }

  // ---------------------------------------------------------------------
  // What Initialize works with

  /** An object the propagator was given. */
  datatype SpaceObject = SpaceObject(name: string, isSpacecraft: bool, ephemerisName: string)

  /** An ephemeris file once read: its span, reference frame, central body
      and the interpolation of its states. */
  datatype EphemFile = EphemFile(start: real, end: real, frame: string, centralBody: string, interp: real -> seq<real>)

  /** What Initialize asks of the base class, the file manager and the
      files: whether the base initialisation succeeded, the objects, whether
      the state manager is set, the initial epoch, whether the start epoch
      comes from the script, the path the file manager finds for a name
      ("" when none), the file read from a path (None when it fails to
      open), and the coordinate conversion to the propagator's frame. */
  datatype InitEnv = InitEnv(
    baseInitialized: bool,
    objects: seq<SpaceObject>,
    psmSet: bool,
    initialEpoch: real,
    fromScript: bool,
    findPath: string -> string,
    open: string -> Option<EphemFile>,
    convert: (Axes, real, seq<real>) -> seq<real>)

  function OneObjectMessage(): string { "CCSDS-OEM propagators require exactly one SpaceObject." }
  function NotSpacecraftMessage(): string { "CCSDS-OEM propagators only work for Spacecraft." }
  function NoFileNameMessage(): string { "The CCSDS-OEM propagator requires a valid ephemeris file name" }
  function MissingFileMessage(name: string): string { "The CCSDS-OEM file " + name + " does not exist" }
  function OpenFailureMessage(name: string): string { "The CCSDS-OEM file " + name + " failed to open" }

  /** The exception of a step outside the span; num is the 16-digit
      formatting of a real. */
  function StepOutsideMessage(name: string, start: real, end: real, epoch: real, num: real -> string): string
  {
    "The CCSDS-OEM Propagator " + name + " is attempting to step outside of the span of the ephemeris data; halting.  "
      + "The current CCSDS-OEM file covers the A.1 modified Julian span " + num(start) + " to " + num(end)
      + " and the requested epoch is " + num(epoch) + "."
  }

  /** The central body the propagator uses: Moon is Luna, none is Earth. */
  function CentralBodyFor(cb: string): (r: string)
    ensures r != "Moon" && r != ""
  {
    if cb == "Moon" then "Luna" else if cb == "" then "Earth" else cb
  }

  // ---------------------------------------------------------------------
  // The propagator's state and what its methods do to it

  /** The fields of the propagator. */
  datatype Fields = Fields(
    ephemName: string,
    fileDataLoaded: bool,
    isInitialized: bool,
    centralBody: string,
    ephemStart: real,
    ephemEnd: real,
    ephemStep: real,
    clock: Clock,
    state: seq<real>,
    axes: Option<Axes>,
    objectEpoch: real,
    propagated: bool,
    ephem: EphemFile)

  /** UpdateState: the file's state at the epoch, converted when the file
      has its own coordinate system. */
  function Converted(f: Fields, convert: (Axes, real, seq<real>) -> seq<real>): seq<real>
  {
    var s := f.ephem.interp(f.clock.current);
    if f.axes.Some? then convert(f.axes.value, f.clock.current, s) else s
  }

  /** The loading branch of Initialize for the one object: the checks on
      the object and its file, then the file is read. */
  function LoadSpec(f: Fields, o: SpaceObject, env: InitEnv): (Fields, Outcome)
  {
    if !o.isSpacecraft then (f, Fail(NotSpacecraftMessage()))
    else
      var f1 := f.(ephemName := o.ephemerisName);
      if f1.ephemName == "" then (f1, Fail(NoFileNameMessage()))
      else
        var path := env.findPath(f1.ephemName);
        if path == "" then (f1, Fail(MissingFileMessage(f1.ephemName)))
        else
          match env.open(path)
          case None => (f1, Fail(OpenFailureMessage(f1.ephemName)))
          case Some(file) => FrameSpec(ReadFileSpec(f1, file, env.initialEpoch), file, env)
  }

  /** Reading the file: its span, the central body, and the epoch and state
      at the initial epoch. */
  function ReadFileSpec(f: Fields, file: EphemFile, initialEpoch: real): Fields
  {
    f.(ephem := file, ephemStart := file.start, ephemEnd := file.end, fileDataLoaded := true,
       centralBody := CentralBodyFor(f.centralBody),
       clock := f.clock.(current := initialEpoch),
       state := file.interp(initialEpoch))
  }

  /** The coordinate systems of the file, then the last epoch, the time from
      the ephemeris start and the converted state at the epoch. */
  function FrameSpec(f: Fields, file: EphemFile, env: InitEnv): (Fields, Outcome)
  {
    match CcsdsCoordinates(file.frame, file.centralBody, f.ephemName)
    case Err(m) => (f.(axes := None), Fail(m))
    case Ok(a) =>
      var f3 := f.(axes := if a.Some? then a else f.axes,
                   clock := f.clock.(last := f.clock.current,
                                     fromStart := (f.clock.current - f.ephemStart) * 86400.0));
      (f3.(state := Converted(f3, env.convert), objectEpoch := f3.clock.current), Pass)
  }

  /** The end of a successful Initialize. */
  function Finish(f: Fields, env: InitEnv): Fields
  {
    (if env.fromScript then f.(objectEpoch := f.clock.current) else f).(isInitialized := true)
  }

  /** Initialize. */
  function InitializeSpec(f: Fields, env: InitEnv): (Fields, Result<bool>)
  {
    if !env.baseInitialized then (f.(isInitialized := false), Ok(false))
    else
      var f1 := f.(clock := f.clock.(taken := 0.0));
      if |env.objects| != 1 then (f1, Err(OneObjectMessage()))
      else LoadAndFinish(f1, env.objects[0], env)
  }

  /** Initialize once its checks pass: the file is loaded when the state
      manager is set and no data is loaded yet, then Initialize finishes. */
  function LoadAndFinish(f: Fields, o: SpaceObject, env: InitEnv): (Fields, Result<bool>)
  {
    if env.psmSet && !f.fileDataLoaded then
      var l := LoadSpec(f, o, env);
      if l.1.Fail? then (l.0, Err(l.1.msg)) else (Finish(l.0, env), Ok(true))
    else (Finish(f, env), Ok(true))
  }

  /** What Initialize promises: without the base class it reports false
      and is not initialised; otherwise it needs exactly one object, and it
      reports true exactly when it does not throw, being then
      initialised. */
  lemma {:induction false} InitializeOutcomes(f: Fields, env: InitEnv)
    ensures !env.baseInitialized ==> InitializeSpec(f, env) == (f.(isInitialized := false), Ok(false))
    ensures env.baseInitialized && |env.objects| != 1 ==> InitializeSpec(f, env).1 == Err(OneObjectMessage())
    ensures InitializeSpec(f, env).1 == Ok(true) <==>
      env.baseInitialized && InitializeSpec(f, env).1.Ok?
    ensures InitializeSpec(f, env).1 == Ok(true) ==> InitializeSpec(f, env).0.isInitialized
  {
    if env.baseInitialized && |env.objects| == 1 {
      var f1 := f.(clock := f.clock.(taken := 0.0));
      assert InitializeSpec(f, env) == LoadAndFinish(f1, env.objects[0], env);
    }
  }

  /** When the one object's file is still to be loaded, the first failed
      check on the object and its file is the exception, and success loads
      the file: its span becomes the propagator's, the epoch and last epoch
      are the initial epoch, the time from the ephemeris start agrees with
      it, the central body is never Moon or empty, and the file's frame is
      one GMAT supports. */
  lemma {:induction false} InitializeLoadsFile(f: Fields, o: SpaceObject, env: InitEnv)
    requires env.psmSet && !f.fileDataLoaded
    ensures var r := LoadAndFinish(f, o, env).1;
      && (!o.isSpacecraft ==> r == Err(NotSpacecraftMessage()))
      && (o.isSpacecraft && o.ephemerisName == "" ==> r == Err(NoFileNameMessage()))
      && (o.isSpacecraft && o.ephemerisName != "" && env.findPath(o.ephemerisName) == "" ==>
            r == Err(MissingFileMessage(o.ephemerisName)))
    ensures LoadAndFinish(f, o, env).1.Ok? ==>
      var g := LoadAndFinish(f, o, env).0;
      var file := env.open(env.findPath(o.ephemerisName)).value;
      && env.open(env.findPath(o.ephemerisName)).Some?
      && g.fileDataLoaded && g.ephemStart == file.start && g.ephemEnd == file.end
      && g.clock.current == env.initialEpoch && g.clock.last == env.initialEpoch
      && Tracks(g.clock, g.ephemStart)
      && g.centralBody != "Moon" && g.centralBody != ""
      && CcsdsCoordinates(file.frame, file.centralBody, o.ephemerisName).Ok?
  {
    var l := LoadSpec(f, o, env);
    if l.1.Pass? {
      var file := env.open(env.findPath(o.ephemerisName)).value;
      var f1 := f.(ephemName := o.ephemerisName);
      var f2 := ReadFileSpec(f1, file, env.initialEpoch);
      assert l == FrameSpec(f2, file, env);
    }
  }

  /** Step. */
  function StepSpec(f: Fields, name: string, num: real -> string): (Fields, Result<bool>)
  {
    var r := StepClock(f.clock, f.ephemStart, f.ephemEnd, f.ephemStep);
    var c := r.0;
    if !r.1 then (f.(clock := c), Err(StepOutsideMessage(name, f.ephemStart, f.ephemEnd, c.current, num)))
    else (f.(clock := c, state := f.ephem.interp(c.current), objectEpoch := c.current, propagated := true), Ok(true))
  }

  /** A step either succeeds or throws, and a step that throws leaves the
      state, the epoch of the object and its propagated flag untouched. */
  lemma StepOutcomes(f: Fields, name: string, num: real -> string)
    ensures StepSpec(f, name, num).1 == Ok(true) || StepSpec(f, name, num).1.Err?
    ensures StepSpec(f, name, num).1.Err? ==>
      var g := StepSpec(f, name, num).0;
      g.state == f.state && g.propagated == f.propagated && g.objectEpoch == f.objectEpoch
  {
  }

  /** A step that succeeds ends inside the span, with the state read from
      the file at the new epoch and the object flagged as propagated. */
  lemma {:induction false} StepSucceedsInSpan(f: Fields, name: string, num: real -> string)
    requires f.ephemStart <= f.ephemEnd
    ensures StepSpec(f, name, num).1 == Ok(true) ==>
      var g := StepSpec(f, name, num).0;
      && f.ephemStart <= g.clock.current <= f.ephemEnd && g.clock.last == g.clock.current
      && g.state == f.ephem.interp(g.clock.current) && g.propagated && g.objectEpoch == g.clock.current
  {
    StepStaysInSpan(f.clock, f.ephemStart, f.ephemEnd, f.ephemStep);
  }

  /** A step from strictly inside the span always succeeds, at the epoch
      moved by the step and stopped at the bound it would cross. */
  lemma {:induction false} StepFromInsideSucceeds(f: Fields, name: string, num: real -> string)
    requires f.ephemStart < f.clock.current < f.ephemEnd
    requires f.clock.last != f.clock.current || Tracks(f.clock, f.ephemStart)
    ensures StepSpec(f, name, num).1 == Ok(true)
    ensures StepSpec(f, name, num).0.clock.current == Clamp(f.clock.current + f.ephemStep / 86400.0, f.ephemStart, f.ephemEnd)
  {
    StepFromInside(f.clock, f.ephemStart, f.ephemEnd, f.ephemStep);
  }

  // ---------------------------------------------------------------------
  // The propagator

  class CcsdsEphPropagator {
    var instanceName: string
    var ephemName: string
    var fileDataLoaded: bool
    var isInitialized: bool
    var centralBody: string
    var ephemStart: real
    var ephemEnd: real
    var ephemStep: real
    var currentEpoch: real
    var lastEpoch: real
    var timeFromEphemStart: real
    var timeFromEpoch: real
    var stepTaken: real
    var state: seq<real>
    /** The coordinate system of the file (ephemCoord), when one is built. */
    var axes: Option<Axes>
    /** The epoch given to the propagated spacecraft. */
    var objectEpoch: real
    /** Whether the spacecraft was told it has been propagated. */
    var propagated: bool
    /** The ephemeris file read. */
    var ephem: EphemFile

    function Snap(): Fields
      reads this
    {
      Fields(ephemName, fileDataLoaded, isInitialized, centralBody, ephemStart, ephemEnd, ephemStep,
             Clock(currentEpoch, lastEpoch, timeFromEphemStart, timeFromEpoch, stepTaken),
             state, axes, objectEpoch, propagated, ephem)
    }

    /** A new propagator has no file name and no data loaded, and its
        times and last epoch hold the -1 sentinel. */
    constructor(name: string)
      ensures instanceName == name && ephemName == "" && !fileDataLoaded && !isInitialized
      ensures timeFromEphemStart == -1.0 && lastEpoch == -1.0 && axes == None && !propagated
    {
      instanceName := name;
      ephemName := "";
      fileDataLoaded := false;
      isInitialized := false;
      centralBody := "";
      ephemStart, ephemEnd, ephemStep := 0.0, 0.0, 0.0;
      currentEpoch := 0.0;
      lastEpoch := -1.0;
      timeFromEphemStart := -1.0;
      timeFromEpoch := 0.0;
      stepTaken := 0.0;
      state := [];
      axes := None;
      objectEpoch := 0.0;
      propagated := false;
      ephem := EphemFile(0.0, 0.0, "", "", t => []);
    }

    /** SetEphemSpan: the span of the file read. */
    method SetEphemSpan(file: EphemFile)
      modifies this
      ensures Snap() == old(Snap()).(ephemStart := file.start, ephemEnd := file.end)
    {
      ephemStart, ephemEnd := file.start, file.end;
    }

    /** BuildCoordinates for the file's frame and central body. */
    method BuildCoordinates(coordinates: string, fileCb: string) returns (o: Outcome)
      modifies this
      ensures var c := CcsdsCoordinates(coordinates, fileCb, old(ephemName));
        && (c.Err? ==> o == Fail(c.msg) && Snap() == old(Snap()).(axes := None))
        && (c == Ok(None) ==> o == Pass && Snap() == old(Snap()))
        && (c.Ok? && c.value.Some? ==> o == Pass && Snap() == old(Snap()).(axes := c.value))
    {
      if coordinates != "" {
        if coordinates != "EME2000" || fileCb != "Earth" {
          axes := None;
          var cb := GmatBody(fileCb);
          var name := OemAxesName(coordinates);
          if name.None? {
            return Fail(UnsupportedFrameMessage(coordinates, ephemName));
          }
          axes := Some(Axes(name.value, cb));
        }
      }
      return Pass;
    }

    /** UpdateState. */
    method UpdateState(convert: (Axes, real, seq<real>) -> seq<real>)
      modifies this
      ensures Snap() == old(Snap()).(state := Converted(old(Snap()), convert))
    {
      var s := ephem.interp(currentEpoch);
      if axes.Some? {
        state := convert(axes.value, currentEpoch, s);
      } else {
        state := s;
      }
    }

    /** The loading branch of Initialize. */
    method Load(o: SpaceObject, env: InitEnv) returns (out: Outcome)
      modifies this
      ensures (Snap(), out) == LoadSpec(old(Snap()), o, env)
    {
      if !o.isSpacecraft {
        return Fail(NotSpacecraftMessage());
      }
      ephemName := o.ephemerisName;
      if ephemName == "" {
        return Fail(NoFileNameMessage());
      }
      var fullPath := env.findPath(ephemName);
      if fullPath == "" {
        return Fail(MissingFileMessage(ephemName));
      }
      var found := env.open(fullPath);
      if found.None? {
        return Fail(OpenFailureMessage(ephemName));
      }
      ReadFile(found.value, env.initialEpoch);
      out := SetUpFrame(found.value, env);
    }

    method ReadFile(file: EphemFile, initialEpoch: real)
      modifies this
      ensures Snap() == ReadFileSpec(old(Snap()), file, initialEpoch)
    {
      ephem := file;
      SetEphemSpan(file);
      fileDataLoaded := true;
      SetCentralBody();
      currentEpoch := initialEpoch;
      state := file.interp(currentEpoch);
    }

    /** Moon becomes Luna, and no central body becomes Earth. */
    method SetCentralBody()
      modifies this
      ensures Snap() == old(Snap()).(centralBody := CentralBodyFor(old(centralBody)))
    {
      if centralBody == "Moon" {
        centralBody := "Luna";
      }
      if centralBody == "" {
        centralBody := "Earth";
      }
    }

    method SetUpFrame(file: EphemFile, env: InitEnv) returns (out: Outcome)
      modifies this
      ensures (Snap(), out) == FrameSpec(old(Snap()), file, env)
    {
      out := BuildCoordinates(file.frame, file.centralBody);
      if out.Fail? {
        return;
      }
      lastEpoch := currentEpoch;
      timeFromEphemStart := (lastEpoch - ephemStart) * 86400.0;
      UpdateState(env.convert);
      objectEpoch := currentEpoch;
    }

    /** Initialize. */
    method Initialize(env: InitEnv) returns (r: Result<bool>)
      modifies this
      ensures (Snap(), r) == InitializeSpec(old(Snap()), env)
    {
      if !env.baseInitialized {
        isInitialized := false;
        return Ok(false);
      }
      stepTaken := 0.0;
      if |env.objects| != 1 {
        return Err(OneObjectMessage());
      }
      r := LoadObject(env.objects[0], env);
    }

    /** Initialize once its checks pass. */
    method LoadObject(o: SpaceObject, env: InitEnv) returns (r: Result<bool>)
      modifies this
      ensures (Snap(), r) == LoadAndFinish(old(Snap()), o, env)
    {
      if env.psmSet && !fileDataLoaded {
        var out := Load(o, env);
        if out.Fail? {
          return Err(out.msg);
        }
      }
      ghost var g := Snap();
      if env.fromScript {
        objectEpoch := currentEpoch;
      }
      isInitialized := true;
      assert Snap() == Finish(g, env);
      return Ok(true);
    }

    function Clk(): Clock
      reads this
    {
      Clock(currentEpoch, lastEpoch, timeFromEphemStart, timeFromEpoch, stepTaken)
    }

    /** Step; num formats the reals of the exception. */
    method Step(num: real -> string) returns (r: Result<bool>)
      modifies this
      ensures (Snap(), r) == StepSpec(old(Snap()), instanceName, num)
      ensures instanceName == old(instanceName)
    {
      ghost var f0 := Snap();
      AdvanceEpoch();
      var inDomain := SettleEpoch();
      assert (Clk(), inDomain) == StepClock(f0.clock, f0.ephemStart, f0.ephemEnd, f0.ephemStep);
      assert Snap() == f0.(clock := Clk());
      if !inDomain {
        return Err(StepOutsideMessage(instanceName, ephemStart, ephemEnd, currentEpoch, num));
      }
      state := ephem.interp(currentEpoch);
      objectEpoch := currentEpoch;
      propagated := true;
      return Ok(true);
    }

    /** The first part of Step. */
    method AdvanceEpoch()
      modifies this
      ensures Snap() == old(Snap()).(clock := Advance(old(Clk()), ephemStart, ephemStep))
      ensures instanceName == old(instanceName)
    {
      if lastEpoch != currentEpoch {
        lastEpoch := currentEpoch;
        timeFromEphemStart := (lastEpoch - ephemStart) * 86400.0;
      }
      timeFromEphemStart := timeFromEphemStart + ephemStep;
      timeFromEpoch := timeFromEpoch + ephemStep;
      stepTaken := ephemStep;
      currentEpoch := ephemStart + timeFromEphemStart / 86400.0;
    }

    /** The pause at the bounds and the slop check of Step, which leaves
        the last epoch at the new epoch when it lies in the span. */
    method SettleEpoch() returns (inDomain: bool)
      modifies this
      ensures (Clk(), inDomain) == Settle(old(Clk()), ephemStart, ephemEnd)
      ensures Snap() == old(Snap()).(clock := Clk())
      ensures instanceName == old(instanceName)
    {
      if lastEpoch < ephemEnd && currentEpoch > ephemEnd {
        currentEpoch := ephemEnd;
      }
      if lastEpoch > ephemStart && currentEpoch < ephemStart {
        currentEpoch := ephemStart;
      }
      var flagOutOfDomain := false;
      if currentEpoch < ephemStart {
        if ephemStart - currentEpoch < Slop {
          currentEpoch := ephemStart;
        } else {
          flagOutOfDomain := true;
        }
      } else if currentEpoch > ephemEnd {
        if currentEpoch - ephemEnd < Slop {
          currentEpoch := ephemEnd;
        } else {
          flagOutOfDomain := true;
        }
      }
      if !flagOutOfDomain {
        lastEpoch := currentEpoch;
      }
      return !flagOutOfDomain;
    }
  }
}
